/** The configuration record of the server: a flat key -> value record,
    the defaults it falls back on, the shallow merge of an update, and the
    joined `host:port:password` text that decides whether to reconnect. */
module ConfigStore {
  import opened Common

  /** A JSON scalar as it can stand in the record (integers only). */
  datatype Value = Null | Bool(b: bool) | Num(n: int) | Str(s: string)

  type Config = map<string, Value>

  /** Reading `config.key`: a missing key reads as `undefined` (None). */
  function Lookup(c: Config, key: string): Option<Value>
  {
    if key in c then Some(c[key]) else None
  }

  /** JavaScript truthiness of a looked-up value. */
  predicate Truthy(v: Option<Value>)
    ensures Truthy(v) ==> v.Some? && v.value != Null && Render(v) != ""
  {
    match v
    case None => false
    case Some(Null) => false
    case Some(Bool(b)) => b
    case Some(Num(n)) => n != 0
    case Some(Str(s)) => s != ""
  }

  /** The record every load starts from (`DEFAULT_CONFIG`). */
  const Defaults: Config := map[
    "threshold" := Num(15),
    "closeDelay" := Num(150),
    "breathe" := Bool(true),
    "bounce" := Bool(true),
    "scale" := Num(80),
    "hotkey" := Str("F9"),
    "hotkeyCode" := Str("F9"),
    "hotkeyCtrl" := Bool(false),
    "hotkeyAlt" := Bool(false),
    "hotkeyShift" := Bool(false),
    "idleImage" := Null,
    "talkImage" := Null,
    "obsHost" := Str("localhost"),
    "obsPort" := Num(4455),
    "obsPassword" := Str(""),
    "obsInputName" := Str("")
  ]

  /** The endpoint the defaults name: localhost, port 4455, no password. */
  lemma DefaultEndpoint()
    ensures Lookup(Defaults, "obsHost") == Some(Str("localhost"))
    ensures Lookup(Defaults, "obsPort") == Some(Num(4455))
    ensures Lookup(Defaults, "obsPassword") == Some(Str(""))
  {
  }

  /** `{ ...c, ...body }`: every key of `body` takes the body's value, every
      other key of `c` keeps its value, and no key is dropped. */
  function Merge(c: Config, body: Config): (r: Config)
    ensures r.Keys == c.Keys + body.Keys
    ensures forall k :: k in body ==> r[k] == body[k]
    ensures forall k :: k in c && k !in body ==> r[k] == c[k]
  {
    c + body
  }

  /** `loadConfig`: the stored record (None when the file is missing or
      unreadable) laid over the defaults. */
  function LoadConfig(stored: Option<Config>): (r: Config)
    ensures Defaults.Keys <= r.Keys
    ensures stored.Some? ==> r.Keys == Defaults.Keys + stored.value.Keys
    ensures stored.None? ==> r == Defaults
    ensures stored.Some? ==> forall k :: k in stored.value ==> k in r && r[k] == stored.value[k]
    ensures stored.Some? ==> forall k :: k in Defaults && k !in stored.value ==> r[k] == Defaults[k]
  {
    match stored
    case None => Defaults
    case Some(s) => Merge(Defaults, s)
  }

  lemma MergeIdempotent(c: Config, body: Config)
    ensures Merge(Merge(c, body), body) == Merge(c, body)
  {
    var once := Merge(c, body);
    var twice := Merge(once, body);
    assert twice.Keys == once.Keys;
    forall k | k in twice ensures twice[k] == once[k] {
      if k in body {
        assert twice[k] == body[k] == once[k];
      }
    }
  }

  // ---- Rendering values into a template string ----

  function Digit(d: nat): (c: char)
    requires d < 10
    ensures '0' <= c <= '9'
  {
    ('0' as int + d) as char
  }

  /** Decimal text of a natural number, most significant digit first. */
  function DigitText(n: nat): (r: string)
    ensures |r| > 0
    ensures forall i :: 0 <= i < |r| ==> '0' <= r[i] <= '9'
  {
    if n < 10 then [Digit(n)] else DigitText(n / 10) + [Digit(n % 10)]
  }

  /** How `${n}` renders an integer. */
  function NumText(n: int): string
  {
    if n < 0 then "-" + DigitText(-n) else DigitText(n)
  }

  /** How `${config.key}` renders a looked-up value. */
  function Render(v: Option<Value>): (r: string)
    ensures r == "" <==> v == Some(Str(""))
    ensures v.Some? && v.value.Str? ==> r == v.value.s
  {
    match v
    case None => "undefined"
    case Some(Null) => "null"
    case Some(Bool(b)) => if b then "true" else "false"
    case Some(Num(n)) => NumText(n)
    case Some(Str(s)) => s
  }

  /** The joined `${obsHost}:${obsPort}:${obsPassword}` text compared before
      and after a configuration update. */
  function ObsKey(c: Config): (r: string)
    ensures |r| == |Render(Lookup(c, "obsHost"))| + |Render(Lookup(c, "obsPort"))| + |Render(Lookup(c, "obsPassword"))| + 2
  {
    Join3(Render(Lookup(c, "obsHost")), Render(Lookup(c, "obsPort")), Render(Lookup(c, "obsPassword")))
  }

  /** Three texts joined by colons. */
  function Join3(h: string, p: string, w: string): (r: string)
    ensures |r| == |h| + |p| + |w| + 2
  {
    h + ":" + p + ":" + w
  }

  lemma {:induction false} DigitTextInjective(a: nat, b: nat)
    requires DigitText(a) == DigitText(b)
    ensures a == b
  {
    var ra, rb := DigitText(a), DigitText(b);
    if a < 10 && b < 10 {
      assert ra[0] == rb[0];
    } else if 10 <= a && 10 <= b {
      assert DigitText(a / 10) == ra[..|ra| - 1] == rb[..|rb| - 1] == DigitText(b / 10);
      DigitTextInjective(a / 10, b / 10);
      assert Digit(a % 10) == ra[|ra| - 1] == rb[|rb| - 1] == Digit(b % 10);
    }
  }

  /** Distinct integers render as distinct text. */
  lemma NumTextInjective(a: int, b: int)
    requires NumText(a) == NumText(b)
    ensures a == b
  {
    NumTextSign(a);
    NumTextSign(b);
    if a < 0 && b < 0 {
      assert DigitText(-a) == NumText(a)[1..] == NumText(b)[1..] == DigitText(-b);
      DigitTextInjective(-a, -b);
    } else if 0 <= a && 0 <= b {
      DigitTextInjective(a, b);
    }
  }

  lemma NumTextSign(n: int)
    ensures |NumText(n)| > 0
    ensures NumText(n)[0] == '-' <==> n < 0
  {
    if n >= 0 {
      assert '0' <= DigitText(n)[0] <= '9';
    }
  }

  /** Each part of a joined key is recovered from the key and the other parts. */
  lemma Join3Parts(h: string, p: string, w: string)
    ensures h == Join3(h, p, w)[..|h|]
    ensures p == Join3(h, p, w)[|h| + 1..|h| + 1 + |p|]
    ensures w == Join3(h, p, w)[|h| + |p| + 2..]
  {
    var r := Join3(h, p, w);
    assert r == h + (":" + p + ":" + w);
    assert r == (h + ":" + p) + (":" + w);
  }

  /** An update that names none of the three endpoint keys leaves the
      joined key as it was, so it never reconnects. */
  lemma UntouchedEndpointKeepsKey(c: Config, body: Config)
    requires "obsHost" !in body && "obsPort" !in body && "obsPassword" !in body
    ensures ObsKey(Merge(c, body)) == ObsKey(c)
  {
    var r := Merge(c, body);
    assert Lookup(r, "obsHost") == Lookup(c, "obsHost");
    assert Lookup(r, "obsPort") == Lookup(c, "obsPort");
    assert Lookup(r, "obsPassword") == Lookup(c, "obsPassword");
  }

  /** With host and password unchanged and numeric ports on both sides, the
      key changes exactly when the port number changes. */
  lemma PortChangeDetected(c1: Config, c2: Config, p1: int, p2: int)
    requires Lookup(c1, "obsHost") == Lookup(c2, "obsHost")
    requires Lookup(c1, "obsPassword") == Lookup(c2, "obsPassword")
    requires Lookup(c1, "obsPort") == Some(Num(p1)) && Lookup(c2, "obsPort") == Some(Num(p2))
    ensures ObsKey(c1) == ObsKey(c2) <==> p1 == p2
  {
    if ObsKey(c1) == ObsKey(c2) {
      var h, w := Render(Lookup(c1, "obsHost")), Render(Lookup(c1, "obsPassword"));
      Join3Parts(h, NumText(p1), w);
      Join3Parts(h, NumText(p2), w);
      NumTextInjective(p1, p2);
    }
  }

  /** With port and password unchanged and string hosts on both sides, the
      key changes exactly when the host text changes. */
  lemma HostChangeDetected(c1: Config, c2: Config, h1: string, h2: string)
    requires Lookup(c1, "obsPort") == Lookup(c2, "obsPort")
    requires Lookup(c1, "obsPassword") == Lookup(c2, "obsPassword")
    requires Lookup(c1, "obsHost") == Some(Str(h1)) && Lookup(c2, "obsHost") == Some(Str(h2))
    ensures ObsKey(c1) == ObsKey(c2) <==> h1 == h2
  {
    if ObsKey(c1) == ObsKey(c2) {
      var p, w := Render(Lookup(c1, "obsPort")), Render(Lookup(c1, "obsPassword"));
      Join3Parts(h1, p, w);
      Join3Parts(h2, p, w);
    }
  }

  /** With host and port unchanged and string passwords on both sides, the
      key changes exactly when the password text changes. */
  lemma PasswordChangeDetected(c1: Config, c2: Config, w1: string, w2: string)
    requires Lookup(c1, "obsHost") == Lookup(c2, "obsHost")
    requires Lookup(c1, "obsPort") == Lookup(c2, "obsPort")
    requires Lookup(c1, "obsPassword") == Some(Str(w1)) && Lookup(c2, "obsPassword") == Some(Str(w2))
    ensures ObsKey(c1) == ObsKey(c2) <==> w1 == w2
  {
    if ObsKey(c1) == ObsKey(c2) {
      var h, p := Render(Lookup(c1, "obsHost")), Render(Lookup(c1, "obsPort"));
      Join3Parts(h, p, w1);
      Join3Parts(h, p, w2);
    }
  }

  /** The key compares text, not values: turning the numeric port 4455 into
      the string "4455" leaves the key unchanged, so no reconnect happens. */
  lemma KeyIgnoresPortType(c: Config)
    requires Lookup(c, "obsPort") == Some(Num(4455))
    ensures ObsKey(Merge(c, map["obsPort" := Str("4455")])) == ObsKey(c)
  {
    NumText4455();
  }

  lemma NumText4455()
    ensures NumText(4455) == "4455"
  {
    assert 4455 / 10 == 445 && 4455 % 10 == 5;
    assert 445 / 10 == 44 && 445 % 10 == 5;
    assert 44 / 10 == 4 && 44 % 10 == 4;
    assert Digit(4) == '4' && Digit(5) == '5';
    assert DigitText(4) == "4";
    assert DigitText(44) == "44";
    assert DigitText(445) == "445";
    assert DigitText(4455) == "4455";
  }

  /** With string host, port and password, the key joins the three texts. */
  lemma StringKey(c: Config, h: string, p: string, w: string)
    requires Lookup(c, "obsHost") == Some(Str(h))
    requires Lookup(c, "obsPort") == Some(Str(p))
    requires Lookup(c, "obsPassword") == Some(Str(w))
    ensures ObsKey(c) == h + ":" + p + ":" + w
  {
  }

  /** The key is a joined string, not a tuple: moving a colon between port
      and password gives the same key for a different endpoint. */
  lemma KeyConflatesColons(c1: Config, c2: Config)
    requires Lookup(c1, "obsHost") == Some(Str("h")) && Lookup(c2, "obsHost") == Some(Str("h"))
    requires Lookup(c1, "obsPort") == Some(Str("1")) && Lookup(c2, "obsPort") == Some(Str("1:2"))
    requires Lookup(c1, "obsPassword") == Some(Str("2:x")) && Lookup(c2, "obsPassword") == Some(Str("x"))
    ensures ObsKey(c1) == ObsKey(c2)
  {
    StringKey(c1, "h", "1", "2:x");
    StringKey(c2, "h", "1:2", "x");
    assert "h" + ":" + "1" + ":" + "2:x" == "h:1:2:x" == "h" + ":" + "1:2" + ":" + "x";
  }
}
