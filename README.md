# PNGTube control server — Dafny model

PNGTube's `server.js` is a local server for a streaming avatar overlay. It
holds one configuration record. It relays state to browser clients over
WebSockets, and it bridges to OBS through obs-websocket. This project models
the server's state and decision logic:

- the configuration record. This covers the defaults, the load from storage,
  the shallow last-write-wins merge of `POST /api/config`, and the reconnect
  decision. That decision compares the joined `host:port:password` text.
- the upload slot rule. Only `idle` and `talk` are accepted, and the content
  type picks the file extension.
- the client registry and `broadcastClients`. A client is registered with a
  role, sent two bootstrap messages, removed on close, and receives the
  fan-out. A `toggle-visible` message from a client is relayed.
- the avatar visibility toggle, and the scene item that `toggleOBSSource`
  picks.
- the OBS link. This is the `obsConnected` flag, the `obsReconnectTimer`
  slot and the timers that are live.
- the `InputVolumeMeters` reduction to one volume in [0, 100].

Module state is one class, `PngTubeServer.Server`. Its methods are the
server's handlers. Every message sent to a client is appended to the field
`sent`, so each handler's contract says exactly what was sent, to whom, and
in what order. Answers from the outside world are method parameters: the
outcome of `obs.connect`, OBS's scene and input lists, probe results, and
whether a file write succeeded. Pure logic lives in modules of functions:
`ConfigStore`, `Uploads`, `Broadcast`, `ObsBridge` and `AudioLevels`. The
class methods are proved against those functions. The functions' properties
are proved as lemmas.

The model follows the code as written, including where it departs from what
a reader might expect:

- The `ConnectionClosed` handler (server.js:246-251) stores a new timer
  without clearing the one in the slot. So timers can stack. One example is
  a failed attempt followed by a close event
  (`ObsBridge.FailThenCloseOrphansTimer`). The "only one timer live" property
  holds only for attempts made from a state where at most the slot's timer is
  live (`ObsBridge.FailuresLeaveOneTimer`). An orphaned timer stays live
  through later attempts.
- The reconnect decision compares joined text, not a tuple of values. If the
  port changes from the number 4455 to the string "4455", the server does not
  reconnect (`ConfigStore.KeyIgnoresPortType`). A colon can also move between
  port and password without changing the text. Port "1" with password "2:x"
  and port "1:2" with password "x" give the same key. Yet the first connects
  to `ws://h:1` and the second to `ws://h:1:2`, so a real endpoint change
  goes without a reconnect (`ObsBridge.ColonMoveKeepsKeyChangesUrl`).
- `saveConfig` runs before the broadcast. A failing save therefore ends the
  handler: the merged record stays in memory, but nothing is broadcast and no
  reconnect happens (`PngTubeServer.Server.PostConfig`, `Upload`).
- The link has only the `obsConnected` flag. There is no separate
  "connecting" state. The flag is false from the start of an attempt until
  the attempt succeeds.
- The merge is shallow (`{ ...config, ...req.body }`), not deep.

## Model

| member | source | states |
|---|---|---|
| ConfigStore.LoadConfig | server.js:39-46 | the loaded record has exactly the default keys plus the stored keys; stored keys take their stored value and other default keys keep the default; nothing stored gives exactly the defaults |
| ConfigStore.Merge | server.js:69 | after an update every key of the body has the body's value, every other key keeps its previous value, and no key is lost |
| ConfigStore.MergeIdempotent | server.js:69 | repeating the same update changes nothing |
| ConfigStore.UntouchedEndpointKeepsKey | server.js:68-74 | an update naming none of obsHost, obsPort, obsPassword leaves the joined key unchanged, so it never reconnects |
| ConfigStore.NumTextInjective | server.js:68 | distinct integer ports render as distinct text in the joined key |
| ConfigStore.PortChangeDetected | server.js:68-74 | with host and password unchanged and numeric ports, the key changes if and only if the port number changes |
| ConfigStore.HostChangeDetected | server.js:68-74 | with port and password unchanged and string hosts, the key changes if and only if the host changes |
| ConfigStore.PasswordChangeDetected | server.js:68-74 | with host and port unchanged and string passwords, the key changes if and only if the password changes |
| ConfigStore.KeyIgnoresPortType | server.js:68-74 | changing the port from 4455 to "4455" leaves the key equal, so no reconnect happens |
| ConfigStore.KeyConflatesColons | server.js:68-74 | host "h", port "1", password "2:x" and host "h", port "1:2", password "x" give the same key |
| ObsBridge.ColonMoveKeepsKeyChangesUrl | server.js:68-74 | those two records give the same key, so no reconnect happens, but their attempts go to the different URLs ws://h:1 and ws://h:1:2 |
| ConfigStore.Truthy | server.js:208-210 | a truthy value is present, not null, and renders as non-empty text |
| ConfigStore.Render | server.js:68 | a value renders as empty text if and only if it is the empty string; a string renders as itself |
| ConfigStore.ObsKey | server.js:68 | the joined key is as long as the three rendered parts plus two separators |
| Uploads.Contains | server.js:84 | `includes` is true if and only if the substring occurs at some index |
| Uploads.UploadOutcome | server.js:80-85 | an upload is accepted if and only if the slot is idle or talk; a refusal is 400 "Invalid type"; an accepted file is named slot.extension |
| Uploads.ExtensionByOccurrence | server.js:84 | the extension is gif if and only if "gif" occurs; webp if and only if "gif" does not occur and "webp" does; otherwise png |
| Uploads.MissingContentTypeIsPng | server.js:83-85 | a missing or empty content type names the file slot.png |
| Uploads.EffectiveContentType | server.js:83 | the content type used is never empty, and a non-empty header is used as given |
| Uploads.ImageExtension | server.js:84 | the extension is always gif, webp or png |
| Uploads.SlotKeysAreDefaultKeys | server.js:88 | the keys idleImage and talkImage that an upload sets are keys of the default record |
| Common.FindFirst | server.js:144 | the result is the first index whose element satisfies the predicate, or none when no element does |
| Broadcast.Fanout | server.js:191-196 | a broadcast makes no more sends than there are clients, and every send carries the same message |
| Broadcast.FanoutRecipients | server.js:193-195 | a client is sent the message if and only if it is registered, open and not the excluded one |
| Broadcast.FanoutOncePerClient | server.js:193-195 | when no connection is registered twice, no client is sent the message twice |
| Broadcast.Without | server.js:188 | removal keeps exactly the clients with another id; removing an absent id changes nothing |
| Broadcast.WithoutIds | server.js:188 | after a close the registered ids are the old ones minus the closed one |
| Broadcast.WithoutKeepsDistinct | server.js:188 | removal keeps every connection registered at most once |
| Broadcast.WithOpen | server.js:194 | a readyState change alters only the open flag of that connection |
| ObsBridge.Schedule | server.js:224 | a scheduled timer is fresh, is live, and replaces whatever the slot held |
| ObsBridge.AfterConnect | server.js:203-226 | an attempt keeps every handle issued, the link is up if and only if it succeeded, and no timer outside the slot is started or cleared |
| ObsBridge.AfterClosed | server.js:246-251 | a close event takes the link down, puts a fresh timer in the slot and keeps every timer that was live |
| ObsBridge.ConnectOutcome | server.js:203-226 | after an attempt the link is connected if and only if it succeeded; success leaves no timer in the slot; failure puts one fresh timer in it; only the slot's old timer is cleared |
| ObsBridge.ConnectKeepsSingleTimer | server.js:204-224 | if at most the slot's timer was live, no timer is live after a success and exactly one after a failure |
| ObsBridge.FailuresLeaveOneTimer | server.js:220-224 | from a state where at most the slot's timer is live, after any positive number of failed attempts in a row exactly one timer is live, in the slot, and the link is down |
| ObsBridge.ClosedStacksTimers | server.js:246-251 | a close event while a retry is pending adds a second live timer and keeps the old one live |
| ObsBridge.FailThenCloseOrphansTimer | server.js:246-251 | a failed attempt followed by a close event leaves two live timers; a later success clears only the slot's timer, so one timer stays live |
| ObsBridge.ClosedAfterSuccessSingleTimer | server.js:246-251 | a close event after a successful attempt leaves exactly one live timer |
| ObsBridge.AttemptFor | server.js:208-211 | the URL starts with ws://; a password is passed if and only if the configured one is truthy, and then it is passed as configured |
| ObsBridge.PlainEndpointAttempt | server.js:208-211 | a non-empty host, a non-zero numeric port and no password give ws://host:port without a password |
| ObsBridge.PortFallback | server.js:209-211 | a falsy port falls back to 4455 with the configured host kept |
| ObsBridge.HostFallback | server.js:208-211 | a falsy host falls back to localhost with the configured port kept |
| ObsBridge.DefaultAttempt | server.js:208-211 | the default record makes the attempt go to ws://localhost:4455 without a password |
| ObsBridge.FalsyEndpointAttempt | server.js:208-211 | falsy host, port and password fall back to ws://localhost:4455 without a password |
| ObsBridge.SourceCommand | server.js:138-151 | a request is issued only while connected, with a source name set and OBS's answer in hand; it targets the current scene and carries the requested flag |
| ObsBridge.SourceCommandSpec | server.js:138-151 | a visibility request is issued if and only if the link is up, a non-empty source name is set, OBS answered, and an item has exactly that name; the request targets the first such item and carries the new flag |
| ObsBridge.SourceNames | server.js:163 | the source list holds the items' names, one per item, in order |
| ObsBridge.SourcesFor | server.js:158-168 | while disconnected the reply is an empty list with no scene and connected false; a failed call gives an empty list with no scene; otherwise the reply holds the scene name and its item names |
| ObsBridge.AudioCapable | server.js:99-105 | the filter never lists more names than there are inputs |
| ObsBridge.AudioCapableAppend | server.js:99-105 | the filter keeps listing order: filtering a concatenation gives the filtered parts concatenated |
| ObsBridge.AudioCapableMembers | server.js:99-105 | an input name is listed if and only if some input of that name answered the volume probe |
| AudioLevels.Peak | server.js:235-240 | the running maximum is never below its start value 0 |
| AudioLevels.Scale | server.js:242 | the scaled volume is level times 100 for a level up to 1 and exactly 100 from 1 up, so at most 100 and not negative for a non-negative level |
| AudioLevels.AudioVolume | server.js:229-243 | a volume is produced only when an input name is configured and the event carries inputs, and it is at most 100 |
| AudioLevels.PeakLevel | server.js:235-240 | the accumulator loop computes the running maximum, from 0, of the first level of every non-empty channel |
| AudioLevels.PeakBounds | server.js:235-240 | the peak is at least 0 and at least the first level of every non-empty channel |
| AudioLevels.PeakAttained | server.js:235-240 | the peak is 0 or the first level of some non-empty channel |
| AudioLevels.VolumeValue | server.js:229-243 | a broadcast volume is the scaled peak of the first input whose name equals the configured one exactly, and that input has a non-empty level list |
| AudioLevels.VolumeInRange | server.js:242 | every broadcast volume lies in [0, 100] |
| AudioLevels.SilentCases | server.js:230-233 | nothing is broadcast if and only if no input name is set, the event has no inputs, no input matches the name exactly, or the first match has a missing or empty level list |
| AudioLevels.NinetyExample | server.js:229-243 | channels [[0.5], [0.9], []] on the configured input give volume 90 |
| PngTubeServer.RoleOf | server.js:176 | the role is never empty; a non-empty query role is kept as given; it is overlay if and only if the query gave no role, an empty role, or overlay |
| PngTubeServer.IsToggleRequest | server.js:184 | only a parsed message whose type is a string can be a toggle request; the comparison is strict, with no coercion |
| PngTubeServer.Server.constructor | server.js:52 | start-up state: the loaded record, no clients, the avatar visible, the link down with no timer |
| PngTubeServer.Server.BroadcastClients | server.js:191-196 | the loop appends exactly the fan-out to the open, non-excluded clients, in order, and leaves the client set unchanged |
| PngTubeServer.Server.OnConnection | server.js:174-179 | a new connection is added with its role and an open socket, then sent the config and then the OBS status |
| PngTubeServer.Server.OnMessage | server.js:181-186 | a toggle-visible message is relayed to every open client; any other or malformed message changes nothing |
| PngTubeServer.Server.OnClose | server.js:188 | a close removes exactly that connection; closing an unknown one changes nothing |
| PngTubeServer.Server.OnSocketClosing | server.js:194 | a socket leaving the open state updates only its open flag, which becomes false |
| PngTubeServer.Server.ConnectToObs | server.js:203-226 | the bridge state becomes the attempt's outcome, a matching obs-status is broadcast, and the attempt goes to the configured endpoint |
| PngTubeServer.Server.OnConnectionClosed | server.js:246-251 | the link goes down, a false status is broadcast, and a new timer is stored over the slot without clearing the old one |
| PngTubeServer.Server.OnReconnectTimer | server.js:224 | a firing timer stops being live and runs an attempt |
| PngTubeServer.Server.PostObsConnect | server.js:116-119 | a forced attempt answers with its outcome |
| PngTubeServer.Server.PostConfig | server.js:67-77 | the record becomes the merge; after a successful save it is broadcast, and an attempt is made if and only if the joined key changed; a failed save sends nothing and leaves the link alone |
| PngTubeServer.Server.Upload | server.js:79-92 | a slot other than idle or talk is refused with 400 and nothing changes; otherwise the slot's key names the file and, once saved, the record is broadcast |
| PngTubeServer.Server.Toggle | server.js:123-136 | each call (POST or GET) flips the flag exactly once, broadcasts the new value, and issues the OBS request chosen for that value |
| PngTubeServer.Server.ToggleTwice | server.js:122-136 | two toggles restore the flag after two broadcasts of opposite values |
| PngTubeServer.Server.OnVolumeMeters | server.js:229-244 | the handler broadcasts the reduced volume to every open client exactly when there is one, and otherwise sends nothing |
| PngTubeServer.Server.ListAudioInputs | server.js:95-110 | while disconnected the reply is an empty list with connected false; a failed listing gives an empty list; otherwise the reply lists the inputs whose probe succeeded, in listing order |

## Left out

- HTTP routing, redirects, static files, `express.json` and `express.raw` body parsing, and the `server.listen` banner. These are plumbing. `GET /api/config` and `GET /api/obs/status` only read `config` and `obsConnected`.
- File system work is not modelled: reading and writing `config.json`, writing image bytes, creating the images directory, and choosing paths for packaged builds. Whether a write succeeded is a parameter. A stored file that is missing, unreadable or not valid JSON is `None`.
- JSON parsing and serialisation are not modelled. Inbound messages are `Inbound` values. A broadcast serialises its message once, and the model expresses this by giving every send the same `Msg` value.
- The obs-websocket-js calls are not modelled: `connect`, `disconnect`, `call`, and the probe calls. Their results are parameters. `obs.disconnect()` at server.js:205 is not modelled, and neither is any `ConnectionClosed` event it may cause.
- The 5-second delay and real time are not modelled. A timer is a handle that is either live or not. It fires only when a caller invokes `OnReconnectTimer`.
- Async interleavings are not modelled. Every handler runs atomically, including across its awaits. For example, `toggleOBSSource` reads `config.obsSourceName` again after its awaits, and the `catch` of `/api/obs/inputs` reads `obsConnected` again; the model reads each value once.
- Configuration values are null, booleans, integers and strings. Non-integer numbers, arrays and objects are not modelled. Integers always render in plain decimal, without the exponent notation JavaScript uses from 1e21 up.
- A request body or stored file that is valid JSON but not an object is not modelled. Spreading one would add index keys.
- Audio levels are reals. NaN and other falsy levels in `channel[0] || 0` are not modelled. A channel that is present but not an array is treated like a missing one.
- PngTubeServer.Server.ListAudioInputs: the error message of a failed listing is reduced to a `failed` flag.
- ObsBridge.SourcesFor: the `error: e.message` field of a failed reply (server.js:166) is not modelled. A failure shows only as an empty list with no scene.
- Console logging is not modelled.
