/** The rule of `POST /api/upload/:type`: which slots are accepted, which
    file extension the content type selects, and which configuration key
    receives the file name. Writing the image bytes is not modelled. */
module Uploads {
  import opened Common
  import opened ConfigStore

  /** `sub` occurs in `s` starting at index `i`. */
  predicate OccursAt(s: string, sub: string, i: int)
  {
    0 <= i && i + |sub| <= |s| && s[i..i + |sub|] == sub
  }

  /** `s.includes(sub)`, scanning left to right. */
  function Contains(s: string, sub: string): (r: bool)
    ensures r <==> exists i :: OccursAt(s, sub, i)
    decreases |s|
  {
    if |sub| > |s| then false
    else if s[..|sub|] == sub then assert OccursAt(s, sub, 0); true
    else
      ShiftOccurrences(s, sub);
      Contains(s[1..], sub)
  }

  lemma ShiftOccurrences(s: string, sub: string)
    requires |sub| <= |s| && s[..|sub|] != sub
    ensures (exists i :: OccursAt(s, sub, i)) <==> (exists j :: OccursAt(s[1..], sub, j))
  {
    if i :| OccursAt(s, sub, i) {
      assert i != 0;
      assert s[1..][i - 1..i - 1 + |sub|] == s[i..i + |sub|];
      assert OccursAt(s[1..], sub, i - 1);
    }
    if j :| OccursAt(s[1..], sub, j) {
      assert s[j + 1..j + 1 + |sub|] == s[1..][j..j + |sub|];
      assert OccursAt(s, sub, j + 1);
    }
  }

  /** The slots an image can be uploaded to. */
  predicate IsSlot(kind: string)
  {
    kind == "idle" || kind == "talk"
  }

  /** The content-type header, or `image/png` when it is missing or empty. */
  function EffectiveContentType(header: Option<string>): (r: string)
    ensures r != ""
    ensures header.Some? && header.value != "" ==> r == header.value
  {
    if header.Some? && header.value != "" then header.value else "image/png"
  }

  /** `gif` if the content type mentions gif, else `webp` if it mentions
      webp, else `png`. */
  function ImageExtension(contentType: string): (r: string)
    ensures r == "gif" || r == "webp" || r == "png"
  {
    if Contains(contentType, "gif") then "gif"
    else if Contains(contentType, "webp") then "webp"
    else "png"
  }

  /** The configuration key that names a slot's image. */
  function SlotKey(kind: string): string
  {
    kind + "Image"
  }

  datatype UploadTarget = Accepted(filename: string) | Rejected(status: nat, error: string)

  /** What an upload to slot `kind` with the given header resolves to. */
  function UploadOutcome(kind: string, header: Option<string>): (r: UploadTarget)
    ensures r.Accepted? <==> IsSlot(kind)
    ensures r.Rejected? ==> r.status == 400 && r.error == "Invalid type"
    ensures r.Accepted? ==> r.filename == kind + "." + ImageExtension(EffectiveContentType(header))
  {
    if !IsSlot(kind) then Rejected(400, "Invalid type")
    else Accepted(kind + "." + ImageExtension(EffectiveContentType(header)))
  }

  /** The extension is fixed by which of the two markers occur in the
      content type, gif taking precedence over webp, png otherwise. */
  lemma ExtensionByOccurrence(contentType: string)
    ensures ImageExtension(contentType) in {"gif", "webp", "png"}
    ensures ImageExtension(contentType) == "gif" <==> exists i :: OccursAt(contentType, "gif", i)
    ensures ImageExtension(contentType) == "webp" <==>
      (forall i :: !OccursAt(contentType, "gif", i)) && (exists i :: OccursAt(contentType, "webp", i))
  {
  }

  /** A missing or empty content type stores a png. */
  lemma MissingContentTypeIsPng(kind: string)
    requires IsSlot(kind)
    ensures UploadOutcome(kind, None) == Accepted(kind + ".png")
    ensures UploadOutcome(kind, Some("")) == Accepted(kind + ".png")
  {
    assert EffectiveContentType(None) == EffectiveContentType(Some("")) == "image/png";
    PngHasNoMarker();
  }

  lemma ContainsStep(s: string, sub: string)
    requires 0 < |sub| <= |s| && s[..|sub|] != sub
    ensures Contains(s, sub) == Contains(s[1..], sub)
  {
  }

  /** The default content type mentions neither marker; each step drops
      one leading character of "image/png". */
  lemma PngHasNoMarker()
    ensures ImageExtension("image/png") == "png"
  {
    assert !Contains("ng", "gif") && !Contains("ng", "webp");
    assert "png"[1..] == "ng";
    assert "png"[..3] == "png";
    ContainsStep("png", "gif");
    assert "/png"[1..] == "png";
    assert "/png"[..3] == "/pn";
    ContainsStep("/png", "gif");
    assert "/png"[..4] == "/png";
    ContainsStep("/png", "webp");
    assert "e/png"[1..] == "/png";
    assert "e/png"[..3] == "e/p";
    ContainsStep("e/png", "gif");
    assert "e/png"[..4] == "e/pn";
    ContainsStep("e/png", "webp");
    assert "ge/png"[1..] == "e/png";
    assert "ge/png"[..3] == "ge/";
    ContainsStep("ge/png", "gif");
    assert "ge/png"[..4] == "ge/p";
    ContainsStep("ge/png", "webp");
    assert "age/png"[1..] == "ge/png";
    assert "age/png"[..3] == "age";
    ContainsStep("age/png", "gif");
    assert "age/png"[..4] == "age/";
    ContainsStep("age/png", "webp");
    assert "mage/png"[1..] == "age/png";
    assert "mage/png"[..3] == "mag";
    ContainsStep("mage/png", "gif");
    assert "mage/png"[..4] == "mage";
    ContainsStep("mage/png", "webp");
    assert "image/png"[1..] == "mage/png";
    assert "image/png"[..3] == "ima";
    ContainsStep("image/png", "gif");
    assert "image/png"[..4] == "imag";
    ContainsStep("image/png", "webp");
  }

  /** Both accepted slots name a key the default record already holds. */
  lemma SlotKeysAreDefaultKeys(kind: string)
    requires IsSlot(kind)
    ensures SlotKey(kind) in Defaults
  {
    if kind == "idle" {
      assert SlotKey(kind) == "idleImage";
    } else {
      assert SlotKey(kind) == "talkImage";
    }
  }
}
