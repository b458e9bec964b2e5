/** The link to OBS: the connection flag and reconnect timers that
    `connectToOBS` and the `ConnectionClosed` handler update, the endpoint an
    attempt is made to, and the selections made from OBS's answers. The OBS
    client library itself is not modelled: its answers are inputs. */
module ObsBridge {
  import opened Common
  import opened ConfigStore

  /** Identity of one `setTimeout` handle. */
  type TimerId = nat

  /** `obsConnected`, the `obsReconnectTimer` slot, the timers that are
      scheduled and neither fired nor cleared, and the next fresh handle. */
  datatype BridgeState = BridgeState(connected: bool, slot: Option<TimerId>, live: set<TimerId>, next: TimerId)

  const Initial := BridgeState(false, None, {}, 0)

  /** Every handle in use was issued before `next`. */
  predicate WellFormed(b: BridgeState)
  {
    (forall t :: t in b.live ==> t < b.next) && (b.slot.Some? ==> b.slot.value < b.next)
  }

  function SlotSet(slot: Option<TimerId>): set<TimerId>
  {
    if slot.Some? then {slot.value} else {}
  }

  /** No timer is live except the one held in the slot. */
  predicate SingleTimer(b: BridgeState)
  {
    b.live <= SlotSet(b.slot)
  }

  /** `obsReconnectTimer = setTimeout(connectToOBS, 5000)`: a fresh timer is
      started and the slot is overwritten, whatever it held. */
  function Schedule(b: BridgeState): (r: BridgeState)
    requires WellFormed(b)
    ensures WellFormed(r)
    ensures r.slot == Some(b.next) && b.next !in b.live && r.live == b.live + {b.next}
  {
    BridgeState(b.connected, Some(b.next), b.live + {b.next}, b.next + 1)
  }

  /** The state at the await in `connectToOBS`: the slot's timer cleared,
      the slot emptied and the link marked disconnected. */
  function BeginConnect(b: BridgeState): BridgeState
  {
    BridgeState(false, None, b.live - SlotSet(b.slot), b.next)
  }

  /** `connectToOBS` with the outcome of `obs.connect`. */
  function AfterConnect(b: BridgeState, succeeded: bool): (r: BridgeState)
    requires WellFormed(b)
    ensures WellFormed(r) && r.connected == succeeded
    ensures r.live - SlotSet(r.slot) == b.live - SlotSet(b.slot)
  {
    var c := BeginConnect(b);
    if succeeded then c.(connected := true) else Schedule(c)
  }

  /** The `ConnectionClosed` handler: disconnected, and a new timer put in
      the slot without clearing the one already there. */
  function AfterClosed(b: BridgeState): (r: BridgeState)
    requires WellFormed(b)
    ensures WellFormed(r) && !r.connected
    ensures r.slot == Some(b.next) && b.next !in b.live && r.live == b.live + {b.next}
  {
    Schedule(b.(connected := false))
  }

  /** A timer fires: it is no longer live (its handler then reconnects). */
  function AfterFire(b: BridgeState, t: TimerId): BridgeState
  {
    b.(live := b.live - {t})
  }

  /** The outcome of an attempt: connected with no timer pending, or
      disconnected with a fresh timer in the slot; the slot's old timer is
      cleared and other timers are untouched. */
  lemma ConnectOutcome(b: BridgeState, succeeded: bool)
    requires WellFormed(b)
    ensures WellFormed(AfterConnect(b, succeeded))
    ensures AfterConnect(b, succeeded).connected == succeeded
    ensures succeeded ==>
      (AfterConnect(b, succeeded).slot == None && AfterConnect(b, succeeded).live == b.live - SlotSet(b.slot))
    ensures !succeeded ==>
      (AfterConnect(b, succeeded).slot == Some(b.next) && b.next !in b.live
       && AfterConnect(b, succeeded).live == (b.live - SlotSet(b.slot)) + {b.next})
  {
  }

  /** From a state where only the slot's timer can be live, an attempt
      leaves no timer after a success and exactly one after a failure. */
  lemma ConnectKeepsSingleTimer(b: BridgeState, succeeded: bool)
    requires WellFormed(b) && SingleTimer(b)
    ensures SingleTimer(AfterConnect(b, succeeded))
    ensures |AfterConnect(b, succeeded).live| == if succeeded then 0 else 1
  {
    assert BeginConnect(b).live == {};
  }

  /** `n` attempts in a row, all failing. */
  function FailRepeatedly(b: BridgeState, n: nat): (r: BridgeState)
    requires WellFormed(b)
    ensures WellFormed(r)
    decreases n
  {
    if n == 0 then b else FailRepeatedly(AfterConnect(b, false), n - 1)
  }

  /** After any number of consecutive failed attempts exactly one timer is
      pending, held in the slot. */
  lemma {:induction false} FailuresLeaveOneTimer(b: BridgeState, n: nat)
    requires WellFormed(b) && SingleTimer(b) && n > 0
    ensures SingleTimer(FailRepeatedly(b, n)) && |FailRepeatedly(b, n).live| == 1
    ensures !FailRepeatedly(b, n).connected
    decreases n
  {
    ConnectKeepsSingleTimer(b, false);
    if n > 1 {
      FailuresLeaveOneTimer(AfterConnect(b, false), n - 1);
    }
  }

  /** The close handler does not clear the slot: closing while a retry is
      pending leaves two live timers. */
  lemma ClosedStacksTimers(b: BridgeState)
    requires WellFormed(b) && b.slot.Some? && b.slot.value in b.live
    ensures |AfterClosed(b).live| == |b.live| + 1
    ensures b.slot.value in AfterClosed(b).live && AfterClosed(b).slot != b.slot
    ensures !SingleTimer(AfterClosed(b))
  {
  }

  /** A failed attempt followed by a close event leaves two timers, and a
      later successful attempt clears only the one in the slot. */
  lemma FailThenCloseOrphansTimer(b: BridgeState)
    requires WellFormed(b) && SingleTimer(b)
    ensures |AfterClosed(AfterConnect(b, false)).live| == 2
    ensures |AfterConnect(AfterClosed(AfterConnect(b, false)), true).live| == 1
    ensures AfterConnect(AfterClosed(AfterConnect(b, false)), true).slot == None
  {
    ConnectKeepsSingleTimer(b, false);
    var f := AfterConnect(b, false);
    ClosedStacksTimers(f);
    var g := AfterClosed(f);
    assert g.live == {f.slot.value, g.slot.value};
    assert AfterConnect(g, true).live == {f.slot.value};
  }

  /** Closing an established link (no timer pending) leaves one timer. */
  lemma ClosedAfterSuccessSingleTimer(b: BridgeState)
    requires WellFormed(b) && SingleTimer(b)
    ensures SingleTimer(AfterClosed(AfterConnect(b, true)))
    ensures |AfterClosed(AfterConnect(b, true)).live| == 1
  {
    ConnectKeepsSingleTimer(b, true);
  }

  // ---- The endpoint of an attempt ----

  /** The URL and password passed to `obs.connect`. */
  datatype Attempt = Attempt(url: string, password: Option<Value>)

  /** `config.obsHost || 'localhost'` and `config.obsPort || 4455` joined
      into `ws://host:port`, and `config.obsPassword || undefined`. */
  function AttemptFor(c: Config): (r: Attempt)
    ensures |r.url| > 6 && r.url[..5] == "ws://"
    ensures r.password.Some? <==> Truthy(Lookup(c, "obsPassword"))
    ensures r.password.Some? ==> r.password == Lookup(c, "obsPassword")
  {
    var host := if Truthy(Lookup(c, "obsHost")) then Render(Lookup(c, "obsHost")) else "localhost";
    var port := if Truthy(Lookup(c, "obsPort")) then Render(Lookup(c, "obsPort")) else "4455";
    var password := if Truthy(Lookup(c, "obsPassword")) then Lookup(c, "obsPassword") else None;
    Attempt("ws://" + host + ":" + port, password)
  }

  /** The default record connects to ws://localhost:4455 without a
      password. */
  lemma DefaultAttempt()
    ensures AttemptFor(Defaults) == Attempt("ws://localhost:4455", None)
  {
    DefaultEndpoint();
    LocalhostAttempt(Defaults);
  }

  /** Host "localhost", port 4455 and no password give
      ws://localhost:4455 with no password. */
  lemma LocalhostAttempt(c: Config)
    requires Lookup(c, "obsHost") == Some(Str("localhost"))
    requires Lookup(c, "obsPort") == Some(Num(4455))
    requires !Truthy(Lookup(c, "obsPassword"))
    ensures AttemptFor(c) == Attempt("ws://localhost:4455", None)
  {
    NumText4455();
    PlainEndpointAttempt(c, "localhost", 4455);
    assert "ws://" + "localhost" + ":" + "4455" == "ws://localhost:4455";
  }

  /** A non-empty host string, a non-zero numeric port and no password give
      `ws://host:port` with no password. */
  lemma PlainEndpointAttempt(c: Config, host: string, port: int)
    requires Lookup(c, "obsHost") == Some(Str(host)) && host != ""
    requires Lookup(c, "obsPort") == Some(Num(port)) && port != 0
    requires !Truthy(Lookup(c, "obsPassword"))
    ensures AttemptFor(c) == Attempt("ws://" + host + ":" + NumText(port), None)
  {
  }

  /** A falsy port falls back to 4455 whatever the host. */
  lemma PortFallback(c: Config, host: string)
    requires Lookup(c, "obsHost") == Some(Str(host)) && host != ""
    requires !Truthy(Lookup(c, "obsPort"))
    ensures AttemptFor(c).url == "ws://" + host + ":4455"
  {
  }

  /** A falsy host falls back to localhost whatever the port. */
  lemma HostFallback(c: Config, port: int)
    requires !Truthy(Lookup(c, "obsHost"))
    requires Lookup(c, "obsPort") == Some(Num(port)) && port != 0
    ensures AttemptFor(c).url == "ws://localhost:" + NumText(port)
  {
  }

  /** Falsy endpoint values fall back to ws://localhost:4455 without a
      password. */
  lemma FalsyEndpointAttempt(c: Config)
    requires !Truthy(Lookup(c, "obsHost")) && !Truthy(Lookup(c, "obsPort")) && !Truthy(Lookup(c, "obsPassword"))
    ensures AttemptFor(c) == Attempt("ws://localhost:4455", None)
  {
  }

  /** The joined key misses a real endpoint change: moving a colon from the
      password into the port keeps the key, so no reconnect happens, yet the
      URL an attempt would use differs. */
  lemma ColonMoveKeepsKeyChangesUrl(c1: Config, c2: Config)
    requires Lookup(c1, "obsHost") == Some(Str("h")) && Lookup(c2, "obsHost") == Some(Str("h"))
    requires Lookup(c1, "obsPort") == Some(Str("1")) && Lookup(c2, "obsPort") == Some(Str("1:2"))
    requires Lookup(c1, "obsPassword") == Some(Str("2:x")) && Lookup(c2, "obsPassword") == Some(Str("x"))
    ensures ObsKey(c1) == ObsKey(c2)
    ensures AttemptFor(c1).url == "ws://h:1" && AttemptFor(c2).url == "ws://h:1:2"
  {
    KeyConflatesColons(c1, c2);
    StringEndpointUrl(c1, "h", "1");
    StringEndpointUrl(c2, "h", "1:2");
    assert "ws://" + "h" + ":" + "1" == "ws://h:1";
    assert "ws://" + "h" + ":" + "1:2" == "ws://h:1:2";
  }

  /** Non-empty host and port strings give the URL `ws://host:port`. */
  lemma StringEndpointUrl(c: Config, host: string, port: string)
    requires Lookup(c, "obsHost") == Some(Str(host)) && host != ""
    requires Lookup(c, "obsPort") == Some(Str(port)) && port != ""
    ensures AttemptFor(c).url == "ws://" + host + ":" + port
  {
  }

  // ---- Selections from OBS's answers ----

  /** One entry of `GetSceneItemList`. */
  datatype SceneItem = SceneItem(sourceName: string, sceneItemId: int)

  /** The current program scene and its items, as OBS reported them. */
  datatype Scene = Scene(name: string, items: seq<SceneItem>)

  /** The `SetSceneItemEnabled` request `toggleOBSSource` issues. */
  datatype SceneCommand = SetSceneItemEnabled(sceneName: string, sceneItemId: int, enabled: bool)

  /** `toggleOBSSource(visible)`: nothing unless connected and a source name
      is configured; otherwise (when OBS answered, `scene` not None) the
      first item whose source name equals the configured one exactly. */
  function SourceCommand(connected: bool, sourceName: Option<Value>, scene: Option<Scene>, visible: bool)
    : (r: Option<SceneCommand>)
    ensures r.Some? ==> connected && Truthy(sourceName) && scene.Some?
    ensures r.Some? ==> r.value.sceneName == scene.value.name && r.value.enabled == visible
  {
    if !connected || !Truthy(sourceName) || scene.None? then None
    else if !sourceName.value.Str? then None
    else
      var name := sourceName.value.s;
      match FindFirst(scene.value.items, (i: SceneItem) => i.sourceName == name)
      case None => None
      case Some(k) => Some(SetSceneItemEnabled(scene.value.name, scene.value.items[k].sceneItemId, visible))
  }

  /** A command is issued exactly when connected, a non-empty source name is
      configured, OBS answered, and some item carries that name; it targets
      the first such item and carries the requested flag. */
  lemma SourceCommandSpec(connected: bool, sourceName: Option<Value>, scene: Option<Scene>, visible: bool)
    ensures SourceCommand(connected, sourceName, scene, visible).Some? <==>
      connected && scene.Some? && sourceName.Some? && sourceName.value.Str? && sourceName.value.s != ""
      && exists k :: 0 <= k < |scene.value.items| && scene.value.items[k].sourceName == sourceName.value.s
    ensures SourceCommand(connected, sourceName, scene, visible).Some? ==>
      exists k :: 0 <= k < |scene.value.items|
        && scene.value.items[k].sourceName == sourceName.value.s
        && (forall j :: 0 <= j < k ==> scene.value.items[j].sourceName != sourceName.value.s)
        && SourceCommand(connected, sourceName, scene, visible)
           == Some(SetSceneItemEnabled(scene.value.name, scene.value.items[k].sceneItemId, visible))
  {
    if connected && scene.Some? && sourceName.Some? && sourceName.value.Str? && sourceName.value.s != "" {
      var name := sourceName.value.s;
      var items := scene.value.items;
      var p := (i: SceneItem) => i.sourceName == name;
      var r := FindFirst(items, p);
      if r.Some? {
        assert p(items[r.value]);
        forall j | 0 <= j < r.value ensures items[j].sourceName != name {
          assert !p(items[j]);
        }
      } else {
        forall k | 0 <= k < |items| ensures items[k].sourceName != name {
          assert !p(items[k]);
        }
      }
    }
  }

  /** `/api/obs/sources`: the item names of the current scene, in order. */
  datatype SourcesReply = SourcesReply(sources: seq<string>, scene: Option<string>, connected: bool)

  function SourceNames(items: seq<SceneItem>): (r: seq<string>)
    ensures |r| == |items| && forall i :: 0 <= i < |items| ==> r[i] == items[i].sourceName
  {
    seq(|items|, i requires 0 <= i < |items| => items[i].sourceName)
  }

  /** The reply of `/api/obs/sources`, given OBS's answer (None when a call
      failed). */
  function SourcesFor(connected: bool, scene: Option<Scene>): (r: SourcesReply)
    ensures !connected ==> r.sources == [] && r.scene == None && !r.connected
    ensures connected && scene.None? ==> r.sources == [] && r.scene == None && r.connected
    ensures connected && scene.Some? ==>
      (r.connected && r.scene == Some(scene.value.name) && r.sources == SourceNames(scene.value.items))
  {
    if !connected then SourcesReply([], None, false)
    else if scene.None? then SourcesReply([], None, true)
    else SourcesReply(SourceNames(scene.value.items), Some(scene.value.name), true)
  }

  /** One entry of `GetInputList` with the outcome of its `GetInputVolume`
      probe. */
  datatype Probed = Probed(inputName: string, hasVolume: bool)

  /** The names of the inputs whose probe succeeded, in listing order. */
  function AudioCapable(ps: seq<Probed>): (r: seq<string>)
    ensures |r| <= |ps|
  {
    if ps == [] then []
    else
      var init := AudioCapable(ps[..|ps| - 1]);
      if ps[|ps| - 1].hasVolume then init + [ps[|ps| - 1].inputName] else init
  }

  /** The filter keeps listing order: filtering a concatenation is the
      concatenation of the filtered parts. */
  lemma {:induction false} AudioCapableAppend(ps: seq<Probed>, qs: seq<Probed>)
    ensures AudioCapable(ps + qs) == AudioCapable(ps) + AudioCapable(qs)
    decreases |qs|
  {
    if qs == [] {
      assert ps + qs == ps;
    } else {
      var init, q := qs[..|qs| - 1], qs[|qs| - 1];
      AudioCapableAppend(ps, init);
      var all := ps + qs;
      assert all[..|all| - 1] == ps + init && all[|all| - 1] == q;
      var tail := if q.hasVolume then [q.inputName] else [];
      assert AudioCapable(all) == AudioCapable(ps + init) + tail;
      assert AudioCapable(qs) == AudioCapable(init) + tail;
    }
  }

  /** A name is kept exactly when some input of that name answered the probe. */
  lemma {:induction false} AudioCapableMembers(ps: seq<Probed>, name: string)
    ensures name in AudioCapable(ps) <==>
      exists i :: 0 <= i < |ps| && ps[i].inputName == name && ps[i].hasVolume
  {
    if ps != [] {
      var init := ps[..|ps| - 1];
      AudioCapableMembers(init, name);
      if i :| 0 <= i < |init| && init[i].inputName == name && init[i].hasVolume {
        assert ps[i] == init[i];
      }
      if i :| 0 <= i < |ps| && ps[i].inputName == name && ps[i].hasVolume {
        if i < |init| {
          assert init[i] == ps[i];
        }
      }
    }
  }

  /** The reply of `/api/obs/inputs`. */
  datatype InputsReply = InputsReply(inputs: seq<string>, connected: bool, failed: bool)
}
