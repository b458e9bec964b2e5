/** The state the server keeps between events and the handlers that update
    it: the configuration record, the set of WebSocket clients, the log of
    everything sent to them, the avatar visibility flag and the OBS link.
    Each handler runs to completion; what the network, the file system or
    OBS answer is passed in as a parameter. */
module PngTubeServer {
  import opened Common
  import opened ConfigStore
  import opened Uploads
  import opened Broadcast
  import opened ObsBridge
  import opened AudioLevels

  /** A message received on a connection after `JSON.parse`: `Malformed`
      when parsing fails or yields no object, otherwise its `type` field. */
  datatype Inbound = Malformed | Parsed(typeField: Option<Value>)

  /** The only inbound message the server acts on. */
  predicate IsToggleRequest(m: Inbound)
    ensures IsToggleRequest(m) ==> m.Parsed? && Truthy(m.typeField)
    ensures m.Parsed? && m.typeField.Some? && !m.typeField.value.Str? ==> !IsToggleRequest(m)
  {
    m == Parsed(Some(Str("toggle-visible")))
  }

  /** `url.searchParams.get('role') || 'overlay'`. */
  function RoleOf(param: Option<string>): (role: string)
    ensures role != ""
    ensures role == "overlay" <==> param.None? || param.value == "" || param.value == "overlay"
    ensures param.Some? && param.value != "" ==> role == param.value
  {
    if param.Some? && param.value != "" then param.value else "overlay"
  }

  /** The answer of `POST /api/config`: `{ ok: true }`, or the error raised
      when saving the record fails. */
  datatype ConfigReply = ConfigSaved | ConfigSaveFailed

  /** The answer of `POST /api/upload/:type`. */
  datatype UploadReply = Uploaded(filename: string) | UploadRejected(status: nat, error: string) | UploadFailed

  class Server {
    var config: Config
    var clients: seq<Client>
    var sent: seq<Delivery>
    var avatarVisible: bool
    var obsConnected: bool
    var reconnectSlot: Option<TimerId>
    var liveTimers: set<TimerId>
    var nextTimer: TimerId

    /** The OBS link's part of the state. */
    function Bridge(): BridgeState
      reads this
    {
      BridgeState(obsConnected, reconnectSlot, liveTimers, nextTimer)
    }

    ghost predicate Valid()
      reads this
    {
      DistinctIds(clients) && WellFormed(Bridge())
    }

    /** Start-up: the record loaded over the defaults, no clients, the
        avatar visible and the link down with no timer. */
    constructor (stored: Option<Config>)
      ensures Valid()
      ensures config == LoadConfig(stored) && clients == [] && sent == []
      ensures avatarVisible && Bridge() == Initial
    {
      config := LoadConfig(stored);
      clients := [];
      sent := [];
      avatarVisible := true;
      obsConnected := false;
      reconnectSlot := None;
      liveTimers := {};
      nextTimer := 0;
    }

    /** `broadcastClients(m, except)`: one send of `m` to every open client
        other than `except`, in order; the client set is left alone. */
    method BroadcastClients(m: Msg, except: Option<ConnId>)
      modifies this`sent
      ensures sent == old(sent) + Fanout(clients, m, except)
    {
      for i := 0 to |clients|
        invariant sent == old(sent) + Fanout(clients[..i], m, except)
      {
        var c := clients[i];
        if except != Some(c.id) && c.open {
          sent := sent + [Delivery(c.id, m)];
        }
        assert clients[..i + 1][..i] == clients[..i];
      }
      assert clients[..|clients|] == clients;
    }

    /** A new WebSocket connection: registered with its role, then sent the
        configuration and the OBS status, in that order. */
    method OnConnection(id: ConnId, roleParam: Option<string>)
      requires Valid() && !Registered(clients, id)
      modifies this`clients, this`sent
      ensures Valid()
      ensures clients == old(clients) + [Client(id, RoleOf(roleParam), true)]
      ensures sent == old(sent) + [Delivery(id, ConfigMsg(config)), Delivery(id, ObsStatus(obsConnected))]
    {
      clients := clients + [Client(id, RoleOf(roleParam), true)];
      sent := sent + [Delivery(id, ConfigMsg(config))];
      sent := sent + [Delivery(id, ObsStatus(obsConnected))];
    }

    /** A message from a client: a toggle request is relayed to every open
        client, the sender included; anything else changes nothing. */
    method OnMessage(m: Inbound)
      modifies this`sent
      ensures sent == old(sent) + if IsToggleRequest(m) then Fanout(clients, ToggleVisible, None) else []
    {
      if IsToggleRequest(m) {
        BroadcastClients(ToggleVisible, None);
      }
    }

    /** A connection's close event: it leaves the client set; closing an
        unknown connection changes nothing. */
    method OnClose(id: ConnId)
      requires Valid()
      modifies this`clients
      ensures Valid()
      ensures clients == Without(old(clients), id)
      ensures Ids(clients) == Ids(old(clients)) - {id}
    {
      WithoutKeepsDistinct(clients, id);
      WithoutIds(clients, id);
      clients := Without(clients, id);
    }

    /** The socket of a registered connection leaves the open state
        (`readyState` 2 or 3) before its close event arrives; a socket
        never becomes open again. */
    method OnSocketClosing(id: ConnId)
      requires Valid()
      modifies this`clients
      ensures Valid()
      ensures clients == WithOpen(old(clients), id, false)
    {
      clients := WithOpen(clients, id, false);
    }

    /** `connectToOBS`, with the outcome of `obs.connect` as `succeeded`. */
    method ConnectToObs(succeeded: bool) returns (attempt: Attempt)
      requires Valid()
      modifies this`obsConnected, this`reconnectSlot, this`liveTimers, this`nextTimer, this`sent
      ensures Valid()
      ensures attempt == AttemptFor(config)
      ensures Bridge() == AfterConnect(old(Bridge()), succeeded)
      ensures sent == old(sent) + Fanout(clients, ObsStatus(succeeded), None)
    {
      if reconnectSlot.Some? {
        liveTimers := liveTimers - {reconnectSlot.value};
        reconnectSlot := None;
      }
      obsConnected := false;
      attempt := AttemptFor(config);
      if succeeded {
        obsConnected := true;
        BroadcastClients(ObsStatus(true), None);
      } else {
        obsConnected := false;
        BroadcastClients(ObsStatus(false), None);
        reconnectSlot := Some(nextTimer);
        liveTimers := liveTimers + {nextTimer};
        nextTimer := nextTimer + 1;
      }
    }

    /** OBS reports the connection closed: disconnected, a status broadcast,
        and a retry timer stored over whatever the slot held. */
    method OnConnectionClosed()
      requires Valid()
      modifies this`obsConnected, this`reconnectSlot, this`liveTimers, this`nextTimer, this`sent
      ensures Valid()
      ensures Bridge() == AfterClosed(old(Bridge()))
      ensures sent == old(sent) + Fanout(clients, ObsStatus(false), None)
    {
      obsConnected := false;
      BroadcastClients(ObsStatus(false), None);
      reconnectSlot := Some(nextTimer);
      liveTimers := liveTimers + {nextTimer};
      nextTimer := nextTimer + 1;
    }

    /** A live reconnect timer fires and runs `connectToOBS`. */
    method OnReconnectTimer(t: TimerId, succeeded: bool) returns (attempt: Attempt)
      requires Valid() && t in liveTimers
      modifies this`obsConnected, this`reconnectSlot, this`liveTimers, this`nextTimer, this`sent
      ensures Valid()
      ensures attempt == AttemptFor(config)
      ensures Bridge() == AfterConnect(AfterFire(old(Bridge()), t), succeeded)
      ensures sent == old(sent) + Fanout(clients, ObsStatus(succeeded), None)
    {
      liveTimers := liveTimers - {t};
      attempt := ConnectToObs(succeeded);
    }

    /** `POST /api/obs/connect`: an attempt, answered with its outcome. */
    method PostObsConnect(succeeded: bool) returns (connected: bool)
      requires Valid()
      modifies this`obsConnected, this`reconnectSlot, this`liveTimers, this`nextTimer, this`sent
      ensures Valid()
      ensures connected == succeeded == obsConnected
      ensures Bridge() == AfterConnect(old(Bridge()), succeeded)
      ensures sent == old(sent) + Fanout(clients, ObsStatus(succeeded), None)
    {
      var _ := ConnectToObs(succeeded);
      connected := obsConnected;
    }

    /** `POST /api/config`: merge the body, save, broadcast the record, and
        reconnect when the joined endpoint text changed. A failing save
        aborts the handler after the merge. */
    method PostConfig(body: Config, saveOk: bool, succeeded: bool) returns (reply: ConfigReply, attempt: Option<Attempt>)
      requires Valid()
      modifies this`config, this`obsConnected, this`reconnectSlot, this`liveTimers, this`nextTimer, this`sent
      ensures Valid()
      ensures config == Merge(old(config), body)
      ensures !saveOk ==> reply == ConfigSaveFailed && attempt == None && sent == old(sent) && Bridge() == old(Bridge())
      ensures saveOk ==> reply == ConfigSaved && (attempt.Some? <==> ObsKey(old(config)) != ObsKey(config))
      ensures saveOk && attempt.None? ==>
        sent == old(sent) + Fanout(clients, ConfigMsg(config), None) && Bridge() == old(Bridge())
      ensures saveOk && attempt.Some? ==>
        && attempt.value == AttemptFor(config)
        && sent == old(sent) + Fanout(clients, ConfigMsg(config), None) + Fanout(clients, ObsStatus(succeeded), None)
        && Bridge() == AfterConnect(old(Bridge()), succeeded)
    {
      var prevObs := ObsKey(config);
      config := Merge(config, body);
      if !saveOk {
        return ConfigSaveFailed, None;
      }
      BroadcastClients(ConfigMsg(config), None);
      var newObs := ObsKey(config);
      if prevObs != newObs {
        var a := ConnectToObs(succeeded);
        attempt := Some(a);
      } else {
        attempt := None;
      }
      reply := ConfigSaved;
    }

    /** `POST /api/upload/:type`: a slot other than idle or talk is refused
        with 400 and nothing changes; otherwise, once the image is written,
        the slot's key names the file and the record is saved and broadcast.
        A failing write or save aborts the handler where it happens. */
    method Upload(kind: string, header: Option<string>, written: bool, saveOk: bool) returns (reply: UploadReply)
      requires Valid()
      modifies this`config, this`sent
      ensures Valid()
      ensures !IsSlot(kind) ==>
        reply == UploadRejected(400, "Invalid type") && config == old(config) && sent == old(sent)
      ensures IsSlot(kind) && !written ==> reply == UploadFailed && config == old(config) && sent == old(sent)
      ensures IsSlot(kind) && written ==>
        config == old(config)[SlotKey(kind) := Str(UploadOutcome(kind, header).filename)]
      ensures IsSlot(kind) && written && !saveOk ==> reply == UploadFailed && sent == old(sent)
      ensures IsSlot(kind) && written && saveOk ==>
        && reply == Uploaded(kind + "." + ImageExtension(EffectiveContentType(header)))
        && sent == old(sent) + Fanout(clients, ConfigMsg(config), None)
    {
      match UploadOutcome(kind, header)
      case Rejected(status, error) =>
        reply := UploadRejected(status, error);
      case Accepted(filename) =>
        if !written {
          return UploadFailed;
        }
        config := config[SlotKey(kind) := Str(filename)];
        if !saveOk {
          return UploadFailed;
        }
        BroadcastClients(ConfigMsg(config), None);
        reply := Uploaded(filename);
    }

    /** `/api/toggle` (POST and GET alike): flip the flag once, broadcast the
        new value, and compute the OBS request `toggleOBSSource` makes from
        OBS's answer `scene` (None when a call failed). */
    method Toggle(scene: Option<Scene>) returns (visible: bool, command: Option<SceneCommand>)
      modifies this`avatarVisible, this`sent
      ensures avatarVisible == !old(avatarVisible) && visible == avatarVisible
      ensures sent == old(sent) + Fanout(clients, SetVisible(avatarVisible), None)
      ensures command == SourceCommand(obsConnected, Lookup(config, "obsSourceName"), scene, avatarVisible)
    {
      avatarVisible := !avatarVisible;
      BroadcastClients(SetVisible(avatarVisible), None);
      command := SourceCommand(obsConnected, Lookup(config, "obsSourceName"), scene, avatarVisible);
      visible := avatarVisible;
    }

    /** Two toggles restore the flag and broadcast opposite values. */
    method ToggleTwice(first: Option<Scene>, second: Option<Scene>)
      modifies this`avatarVisible, this`sent
      ensures avatarVisible == old(avatarVisible)
      ensures sent == old(sent) + Fanout(clients, SetVisible(!old(avatarVisible)), None)
                               + Fanout(clients, SetVisible(old(avatarVisible)), None)
    {
      var _, _ := Toggle(first);
      var _, _ := Toggle(second);
    }

    /** The `InputVolumeMeters` handler: broadcast the reduced volume of the
        configured input, or nothing. */
    method OnVolumeMeters(inputs: Option<seq<InputLevels>>) returns (volume: Option<real>)
      modifies this`sent
      ensures volume == AudioVolume(Lookup(config, "obsInputName"), inputs)
      ensures volume.Some? ==> sent == old(sent) + Fanout(clients, Audio(volume.value), None)
      ensures volume.None? ==> sent == old(sent)
    {
      var name := Lookup(config, "obsInputName");
      if !Truthy(name) || inputs.None? {
        return None;
      }
      var k := FindFirst(inputs.value, NamedAs(name));
      if k.None? {
        return None;
      }
      var levels := inputs.value[k.value].levels;
      if levels.None? || |levels.value| == 0 {
        return None;
      }
      var maxLevel := PeakLevel(levels.value);
      volume := Some(Scale(maxLevel));
      BroadcastClients(Audio(volume.value), None);
    }

    /** `GET /api/obs/inputs`, with OBS's input list and each probe's
        outcome (`listing` None when listing failed). */
    method ListAudioInputs(listing: Option<seq<Probed>>) returns (reply: InputsReply)
      ensures !obsConnected ==> reply == InputsReply([], false, false)
      ensures obsConnected && listing.None? ==> reply == InputsReply([], true, true)
      ensures obsConnected && listing.Some? ==> reply == InputsReply(AudioCapable(listing.value), true, false)
    {
      if !obsConnected {
        return InputsReply([], false, false);
      }
      if listing.None? {
        return InputsReply([], obsConnected, true);
      }
      var inputs := listing.value;
      var audioInputs := [];
      for i := 0 to |inputs|
        invariant audioInputs == AudioCapable(inputs[..i])
      {
        if inputs[i].hasVolume {
          audioInputs := audioInputs + [inputs[i].inputName];
        }
        assert inputs[..i + 1][..i] == inputs[..i];
      }
      assert inputs[..|inputs|] == inputs;
      reply := InputsReply(audioInputs, true, false);
    }
  }
}
