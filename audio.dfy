/** The `InputVolumeMeters` reduction: the configured input's channels are
    reduced to one volume in [0, 100]. Levels are reals; IEEE details
    (NaN, infinities) are not modelled. */
module AudioLevels {
  import opened Common
  import opened ConfigStore

  /** One entry of `inputLevelsMul`; None stands for a missing or null
      channel. */
  type Channel = Option<seq<real>>

  /** One entry of the event's `inputs`; `levels` is None when
      `inputLevelsMul` is missing. */
  datatype InputLevels = InputLevels(inputName: string, levels: Option<seq<Channel>>)

  /** `channel && channel.length > 0`. */
  predicate Sounding(ch: Channel)
  {
    ch.Some? && |ch.value| > 0
  }

  function Max(a: real, b: real): real
  {
    if a < b then b else a
  }

  /** The running maximum, from 0, of the first level of every sounding
      channel, taken in order. */
  function Peak(levels: seq<Channel>): (r: real)
    ensures r >= 0.0
  {
    if levels == [] then 0.0
    else
      var m := Peak(levels[..|levels| - 1]);
      var ch := levels[|levels| - 1];
      if Sounding(ch) then Max(m, ch.value[0]) else m
  }

  /** The peak is at least 0 and at least the first level of every sounding
      channel. */
  lemma {:induction false} PeakBounds(levels: seq<Channel>)
    ensures Peak(levels) >= 0.0
    ensures forall i :: 0 <= i < |levels| && Sounding(levels[i]) ==> levels[i].value[0] <= Peak(levels)
  {
    if levels != [] {
      var init := levels[..|levels| - 1];
      PeakBounds(init);
      forall i | 0 <= i < |levels| && Sounding(levels[i]) ensures levels[i].value[0] <= Peak(levels) {
        if i < |init| {
          assert levels[i] == init[i];
        }
      }
    }
  }

  /** The peak is 0 or the first level of some sounding channel. */
  lemma {:induction false} PeakAttained(levels: seq<Channel>)
    ensures Peak(levels) == 0.0 ||
      exists i :: 0 <= i < |levels| && Sounding(levels[i]) && levels[i].value[0] == Peak(levels)
  {
    if levels != [] {
      var init := levels[..|levels| - 1];
      PeakAttained(init);
      if Peak(levels) != 0.0 && Peak(levels) == Peak(init) {
        var i :| 0 <= i < |init| && Sounding(init[i]) && init[i].value[0] == Peak(init);
        assert levels[i] == init[i];
      }
    }
  }

  /** The accumulator loop over `inputLevelsMul`. */
  method PeakLevel(levels: seq<Channel>) returns (maxLevel: real)
    ensures maxLevel == Peak(levels)
  {
    maxLevel := 0.0;
    for i := 0 to |levels|
      invariant maxLevel == Peak(levels[..i])
    {
      var channel := levels[i];
      if Sounding(channel) {
        maxLevel := Max(maxLevel, channel.value[0]);
      }
      assert levels[..i + 1][..i] == levels[..i];
    }
    assert levels[..|levels|] == levels;
  }

  /** `i => i.inputName === config.obsInputName`. */
  function NamedAs(inputName: Option<Value>): InputLevels -> bool
  {
    (i: InputLevels) => Some(Str(i.inputName)) == inputName
  }

  /** `Math.min(100, level * 100)`. */
  function Scale(level: real): (r: real)
    ensures r <= 100.0
    ensures level >= 0.0 ==> r >= 0.0
    ensures level <= 1.0 ==> r == level * 100.0
    ensures 1.0 <= level ==> r == 100.0
  {
    if 100.0 < level * 100.0 then 100.0 else level * 100.0
  }

  /** The volume broadcast for one event, or None when the handler returns
      without broadcasting. */
  function AudioVolume(inputName: Option<Value>, inputs: Option<seq<InputLevels>>): (r: Option<real>)
    ensures r.Some? ==> Truthy(inputName) && inputs.Some?
    ensures r.Some? ==> r.value <= 100.0
  {
    if !Truthy(inputName) || inputs.None? then None
    else
      match FindFirst(inputs.value, NamedAs(inputName))
      case None => None
      case Some(k) =>
        var levels := inputs.value[k].levels;
        if levels.None? || |levels.value| == 0 then None
        else Some(Scale(Peak(levels.value)))
  }

  /** Every broadcast volume lies in [0, 100]. */
  lemma VolumeInRange(inputName: Option<Value>, inputs: Option<seq<InputLevels>>)
    ensures AudioVolume(inputName, inputs).Some? ==>
      0.0 <= AudioVolume(inputName, inputs).value <= 100.0
  {
    if AudioVolume(inputName, inputs).Some? {
      var k := FindFirst(inputs.value, NamedAs(inputName)).value;
      PeakBounds(inputs.value[k].levels.value);
    }
  }

  /** A broadcast volume is the scaled peak of the first input whose name is
      exactly the configured one, when that input has a non-empty level
      list. */
  lemma VolumeValue(inputName: Option<Value>, inputs: Option<seq<InputLevels>>)
    ensures AudioVolume(inputName, inputs).Some? ==>
      exists k :: 0 <= k < |inputs.value|
        && Some(Str(inputs.value[k].inputName)) == inputName
        && (forall j :: 0 <= j < k ==> Some(Str(inputs.value[j].inputName)) != inputName)
        && inputs.value[k].levels.Some? && |inputs.value[k].levels.value| > 0
        && AudioVolume(inputName, inputs).value == Scale(Peak(inputs.value[k].levels.value))
  {
    if AudioVolume(inputName, inputs).Some? {
      var p := NamedAs(inputName);
      var k := FindFirst(inputs.value, p).value;
      assert p(inputs.value[k]);
      forall j | 0 <= j < k ensures Some(Str(inputs.value[j].inputName)) != inputName {
        assert !p(inputs.value[j]);
      }
    }
  }

  /** The handler stays silent exactly when no input name is configured, the
      event has no inputs, no input carries the configured name, or the
      first input that does has no (or an empty) level list. */
  lemma SilentCases(inputName: Option<Value>, inputs: Option<seq<InputLevels>>)
    ensures AudioVolume(inputName, inputs).None? <==>
      (!Truthy(inputName) || inputs.None?
       || (forall k :: 0 <= k < |inputs.value| ==> Some(Str(inputs.value[k].inputName)) != inputName)
       || (exists k :: 0 <= k < |inputs.value| && Some(Str(inputs.value[k].inputName)) == inputName
             && (forall j :: 0 <= j < k ==> Some(Str(inputs.value[j].inputName)) != inputName)
             && (inputs.value[k].levels.None? || |inputs.value[k].levels.value| == 0)))
  {
    if Truthy(inputName) && inputs.Some? {
      var xs := inputs.value;
      var p := NamedAs(inputName);
      var r := FindFirst(xs, p);
      if r.Some? {
        var k := r.value;
        assert p(xs[k]);
        forall j | 0 <= j < k ensures Some(Str(xs[j].inputName)) != inputName {
          assert !p(xs[j]);
        }
        forall k' | 0 <= k' < |xs| && p(xs[k']) && (forall j :: 0 <= j < k' ==> !p(xs[j])) ensures k' == k {
        }
        assert !(forall j :: 0 <= j < |xs| ==> Some(Str(xs[j].inputName)) != inputName) by {
          assert Some(Str(xs[k].inputName)) == inputName;
        }
      } else {
        forall j | 0 <= j < |xs| ensures Some(Str(xs[j].inputName)) != inputName {
          assert !p(xs[j]);
        }
      }
    }
  }

  /** Channels [[0.5], [0.9], []] on the configured input give 90. */
  lemma NinetyExample()
    ensures AudioVolume(Some(Str("mic")),
      Some([InputLevels("mic", Some([Some([0.5]), Some([0.9]), Some([])]))])) == Some(90.0)
  {
    var one: seq<Channel> := [Some([0.5])];
    var two := one + [Some([0.9])];
    var levels := two + [Some([])];
    assert one[..0] == [] && Peak(one) == 0.5;
    assert two[..1] == one && Peak(two) == 0.9;
    assert levels[..2] == two && Peak(levels) == 0.9;
    assert [Some([0.5]), Some([0.9]), Some([])] == levels;
  }
}
