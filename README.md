# RoomClient session bookkeeping, in Dafny

This project models the state that the browser client of a mediasoup video-conference room keeps in
`RoomClient` (app/lib/RoomClient.js) and proves properties of it. The modelled state is:

- whether the client is closed, and the room state it publishes;
- the lastN active-speaker window (capacity 3);
- the webcam device map, the selected webcam and its resolution tier;
- the mic, webcam and screen-sharing producer slots;
- the room's peers and their consumers, which the client pauses and resumes;
- the audio-only flag.

The signaling channel (protoo), the media engine (mediasoup-client) and the browser's device APIs
are collaborators. Their outcomes are parameters:

- the enumerated device list, or `None` when enumeration fails;
- whether a capture, a `send` or a `replaceTrack` succeeds;
- the id of a newly created producer.

Each promise chain becomes a straight-line method with a success path and failure paths. An
`actions` log records the request handler's calls: accept or reject, and the UI store dispatches
and client calls each request leads to. It also records `room.leave()` and the channel close from
`close()`, and `room.remoteClose()` on disconnection. The other UI store dispatches are not logged.
These are addProducer, removeProducer, setProducerTrack, setRoomState, setCanChangeWebcam and
setAudioOnlyState. The state they publish is held in fields instead (`roomState`,
`canChangeWebcam`, `audioOnly`, the producer slots and `webcamTrack`), or not at all.

Modules:

- `Common`: `Option`, `IndexOf` (JavaScript `Array.prototype.indexOf`), `Distinct`.
- `Media`: consumers and peers, and the pause and resume passes over them.
- `Speakers`: the lastN window, including move-to-front, eviction and the server sync.
- `Webcams`: the device map, which is a JavaScript `Map` kept in insertion order. Also the
  selection fix-up, cyclic device switching, the resolution cycle and the back/front label test.
- `Signaling`: inbound requests and `Reaction`, the pure specification of the request dispatcher.
- `Client`: `class RoomClient`, whose fields are the client's state. Its methods are the client's
  operations, each proved against the pure functions above.

Where the code departs from the intended design, the model follows the code:

- `handleActiveSpeaker` is public but the dispatcher does not call it (the call is commented out).
- `_setScreenShareProducer` has no "already exists" guard.
- The screen producer's `close` handler never empties the screen slot. It closes whatever producer
  the slot holds.
- `changeWebcam` keeps the advanced selection when the capture or the track swap fails.
- `handleActiveSpeaker` does not check the results of its `getPeerByName` lookups. A missing peer
  makes it throw partway through, and the model returns `ok == false` in that state rather than
  requiring the peer to exist.

## Model

| member | source | states |
|---|---|---|
| Common.IndexOf | app/lib/RoomClient.js:758 | -1 exactly when the value is absent; otherwise the first position holding it |
| Media.PauseKind | app/lib/RoomClient.js:544-550 | every consumer of the kind is paused with the reason; the others are untouched; identity, kind and support are kept |
| Media.ResumeKind | app/lib/RoomClient.js:580-586 | supported consumers of the kind end up playing; unsupported consumers and other kinds are untouched |
| Media.Admit | app/lib/RoomClient.js:1724-1728 | a supported video consumer arriving in audio-only mode is paused with 'audio-only-mode'; any other consumer is unchanged |
| Media.AdmitAll | app/lib/RoomClient.js:1637-1640 | each of a new peer's consumers goes through the audio-only pre-pause, in order |
| Media.PeerIndex | app/lib/RoomClient.js:771 | the lookup by name yields -1 exactly when no peer has that name, else a peer with that name |
| Media.PauseIn | app/lib/RoomClient.js:540-552 | the pause pass over the peers: peers in scope have their consumers of the kind paused, all others are unchanged; names and order are kept |
| Media.ResumeIn | app/lib/RoomClient.js:576-588 | the resume pass: peers in scope have their supported consumers of the kind resumed; names and order are kept |
| Media.PauseNamedIsLookup | app/lib/RoomClient.js:771-778 | with unique names, scanning all peers for a name equals pausing the one peer the lookup finds; an unknown name changes nothing |
| Media.ResumeNamedIsLookup | app/lib/RoomClient.js:783-790 | the same for the resume pass |
| Media.PauseInIdempotent | app/lib/RoomClient.js:540-552 | pausing twice with the same reason equals pausing once |
| Media.PauseThenResume | app/lib/RoomClient.js:684-696 | pause then resume of a kind leaves supported consumers of that kind playing, unsupported ones paused with the reason, other kinds untouched |
| Speakers.Behind | app/lib/RoomClient.js:758-779 | a listed speaker is spliced out once (same multiset minus one); for a new speaker the result is a prefix of the window, one shorter when it is full (the tail popped) and the whole window otherwise |
| Speakers.Promote | app/lib/RoomClient.js:754-781 | the speaker is at the front; a listed speaker keeps length and multiset; a new one grows the window unless it evicts |
| Speakers.PromoteCountsSpeaker | app/lib/RoomClient.js:758-781 | the speaker occurs once after a new arrival and as often as before otherwise; a window without repetitions keeps none |
| Speakers.PromoteKeepsOrder | app/lib/RoomClient.js:758-781 | the other members keep their relative order; only the tail of a full window can leave |
| Speakers.PromoteBounded | app/lib/RoomClient.js:767-781 | a window of at most 3 names stays within 3 |
| Speakers.PromoteEvictsTail | app/lib/RoomClient.js:767-781 | a full window of distinct names loses exactly its tail when a new speaker arrives |
| Speakers.Synced | app/lib/RoomClient.js:1036-1043 | an empty received list is ignored; otherwise the window is the received list's prefix of length min(n, 3) |
| Webcams.NextResolution | app/lib/RoomClient.js:469-480 | the successor tier always differs, and wraps to qvga exactly from hd |
| Webcams.ResolutionCycle | app/lib/RoomClient.js:469-480 | three steps are the identity, two are not |
| Webcams.Put | app/lib/RoomClient.js:1579 | Map.set: an existing key keeps its position and takes the new value; a new key is appended |
| Webcams.Collect | app/lib/RoomClient.js:1574-1580 | the map rebuilt by setting each enumerated device: never longer than the enumeration, and it holds only enumerated video inputs |
| Webcams.CollectWellFormed | app/lib/RoomClient.js:1572-1580 | the rebuilt map has distinct keys, holds only enumerated video inputs and has a key for every one |
| Webcams.CollectIsVideoInputs | app/lib/RoomClient.js:1572-1580 | with no repeated video deviceId the map is exactly the video inputs in enumeration order |
| Webcams.Reselect | app/lib/RoomClient.js:1582-1594 | no device gives no selection; a vanished selection becomes the first device; a present selection is kept |
| Webcams.NextWebcam | app/lib/RoomClient.js:387-399 | none exactly when the map is empty; always a listed device; the first one when nothing listed is selected |
| Webcams.NextWebcamWraps | app/lib/RoomClient.js:387-399 | with distinct keys, the device at i is followed by the one at i + 1, and the last by the first |
| Webcams.AdvanceWalks | app/lib/RoomClient.js:387-399 | n switches before the end of the list move exactly n positions on |
| Webcams.AdvanceCycles | app/lib/RoomClient.js:387-399 | switching as many times as there are devices returns to the start |
| Webcams.WebcamType | app/lib/RoomClient.js:1601-1615 | back exactly when 'back' or 'rear' occurs in the label, ignoring ASCII case |
| Signaling.Reaction | app/lib/RoomClient.js:898-1055 | exactly one acknowledgement and it comes first; accept exactly for known methods; an unknown method gets only reject(404, 'unknown method'); an active-speaker naming the local peer does nothing else |
| Signaling.Renamed | app/lib/RoomClient.js:933-962 | only the named peer's display name changes; names and consumers are kept; an unknown name changes nothing |
| Client.ProduceStatus | app/lib/RoomClient.js:1437-1556 | the guard order of the producer setters: cannot-send first, then an occupied slot; success exactly when every step succeeds; a created producer must be closed exactly when the send fails |
| Client.Silenced | app/lib/RoomClient.js:767-778 | when a new speaker meets a full window, the peer named at its tail has its video paused with 'not-speaking'; every other peer and consumer is kept, and names are kept |
| Client.NewSpeakerConsumers | app/lib/RoomClient.js:765-791 | for a new speaker, the evicted peer's video is paused with 'not-speaking', the speaker's supported video is resumed, and every other consumer is untouched |
| Client.PauseEach | app/lib/RoomClient.js:544-550 | the consumer pause loop computes PauseKind |
| Client.ResumeEach | app/lib/RoomClient.js:580-586 | the consumer resume loop computes ResumeKind |
| Client.AdmitEach | app/lib/RoomClient.js:1637-1640 | the loop of `_handlePeer` over the new peer's consumers computes AdmitAll |
| Client.RoomClient.constructor | app/lib/RoomClient.js:31-101 | a fresh client: open, connecting, empty window and map, no selection, hd, empty slots |
| Client.RoomClient.Close | app/lib/RoomClient.js:103-120 | the first call leaves the room, closes the channel and publishes 'closed'; later calls change nothing |
| Client.RoomClient.OnChannelClose | app/lib/RoomClient.js:888-896 | the channel's close event does nothing once closed and otherwise closes the client |
| Client.RoomClient.OnDisconnected | app/lib/RoomClient.js:871-886 | disconnection closes the room remotely and goes back to 'connecting' |
| Client.RoomClient.HandleRequest | app/lib/RoomClient.js:898-1055 | the calls made are exactly Reaction; room-data-receive syncs the window; display-name-changed renames the peer; nothing else changes |
| Client.RoomClient.HandleActiveSpeaker | app/lib/RoomClient.js:754-793 | a listed speaker is promoted with no consumer touched; a new one evicts and silences the tail and has its video resumed; a missing peer stops the method where the source throws |
| Client.RoomClient.PauseConsumers | app/lib/RoomClient.js:540-552 | the nested pause loops compute PauseIn and keep peer names unique |
| Client.RoomClient.ResumeConsumers | app/lib/RoomClient.js:576-588 | the nested resume loops compute ResumeIn |
| Client.RoomClient.MutePeerAudio | app/lib/RoomClient.js:530-564 | pauses only the named peer's audio, with 'mute-audio' |
| Client.RoomClient.UnmutePeerAudio | app/lib/RoomClient.js:566-600 | resumes only the named peer's supported audio |
| Client.RoomClient.PausePeerVideo | app/lib/RoomClient.js:602-636 | pauses only the named peer's video, with 'pause-video' |
| Client.RoomClient.ResumePeerVideo | app/lib/RoomClient.js:638-672 | resumes only the named peer's supported video |
| Client.RoomClient.EnableAudioOnly | app/lib/RoomClient.js:674-711 | closes and clears the webcam producer, pauses every peer's video with 'audio-only-mode', sets audio-only |
| Client.RoomClient.DisableAudioOnly | app/lib/RoomClient.js:713-752 | re-enables the webcam only when its slot is empty and video may be sent, resumes every supported video, clears audio-only |
| Client.RoomClient.AdmitConsumer | app/lib/RoomClient.js:1659-1665 | a new consumer of a known peer is appended to that peer after the audio-only pre-pause |
| Client.RoomClient.AdmitPeer | app/lib/RoomClient.js:1617-1640 | a new peer joins with its consumers pre-paused as audio-only mode demands |
| Client.RoomClient.UpdateWebcams | app/lib/RoomClient.js:1558-1599 | the map is reset and rebuilt from the enumeration, the selection fixed up, and canChangeWebcam is true iff at least two webcams exist |
| Client.RoomClient.ChangeWebcam | app/lib/RoomClient.js:373-452 | the selection advances cyclically and the tier resets to hd; the track is swapped only when a device, the capture, the producer and the swap are all there; no rollback |
| Client.RoomClient.ChangeWebcamResolution | app/lib/RoomClient.js:454-528 | on success the tier advances and the track is swapped; on any failure the tier is what it was |
| Client.RoomClient.SetMicProducer | app/lib/RoomClient.js:1213-1315 | guards, then the slot holds the new producer on success; on a send failure the producer is closed and the slot is unchanged |
| Client.RoomClient.SetWebcamProducer | app/lib/RoomClient.js:1437-1556 | as for the mic, and also needs a selected device; success records the captured device and tier |
| Client.RoomClient.SetScreenShareProducer | app/lib/RoomClient.js:1317-1435 | as for the mic but with no occupied-slot guard, so success overwrites the slot |
| Client.RoomClient.OnMicProducerClose | app/lib/RoomClient.js:1262-1269 | the mic producer's close event empties the mic slot |
| Client.RoomClient.OnWebcamProducerClose | app/lib/RoomClient.js:1503-1510 | the webcam producer's close event empties the webcam slot |
| Client.RoomClient.OnScreenSharingProducerClose | app/lib/RoomClient.js:1373-1380 | the screen producer's close event closes the slot's producer and leaves the slot as it is |
| Client.RoomClient.DisableScreenSharing | app/lib/RoomClient.js:322-344 | closes the producer in the screen slot, if any; the slot is not emptied |
| Client.RoomClient.DisableWebcam | app/lib/RoomClient.js:346-371 | closes the webcam producer; its close event empties the slot |
| Client.RoomClient.EnableWebcam | app/lib/RoomClient.js:289-320 | refreshes the map, then tries the webcam producer if enumeration succeeded; every failure is swallowed |

## Left out

- The protoo WebSocket and its request round-trips (`changeDisplayName`, `sendChatMessage`, `getRoomData`, `sendRaiseHandState`, `restartIce`) are network I/O. A verified `auth` request is logged as a `ChangeDisplayName` action.
- `join`, transport creation, `createProducer`, `send`, `receive` and `replaceTrack` belong to mediasoup-client. Their outcomes are parameters, and a new producer's id is a parameter.
- `_joinRoom` (app/lib/RoomClient.js:1058-1211) is the client's own join sequence, and it lies outside the modelled core. It:
  - joins the room and creates the transports;
  - produces the mic, and the webcam when the webcam cookie allows it;
  - publishes the room state 'connected';
  - adopts the peers already in the room through `_handlePeer`;
  - closes the client when joining fails.
  No method of the model reaches `RoomState.Connected`. Peers enter the model one at a time through `AdmitPeer`.
- `room.leave()` in `close()` and `room.remoteClose()` on disconnection close the room's producers inside mediasoup-client. The producers' own 'close' handlers would then empty the mic and webcam slots. mediasoup-client is not part of this model, so `Close` and `OnDisconnected` leave the producer slots and `closedProducers` as they were.
- `muteMic` and `unmuteMic` pause the producer inside mediasoup-client and change no field of the client.
- Whether a pause is local or remote is tracked by mediasoup-client and the UI reducers, which are not part of this model. A consumer's pause overwrites its reason, and a resume clears it.
- `getUserMedia`, `enumerateDevices` and screen capture are device I/O. Their results are parameters. The capture constraints (`VIDEO_CONSTRAINS`) are left out; only the tier labels are modelled.
- `login`, `closeLoginWindow` and `installExtension` open windows or talk to the browser. Closing the login window is logged as an action.
- Cookies, notification texts and the "in progress" UI flags are UI projections or persistence.
- `setTimeout` delays are left out. The channel close 250 ms after `close()` is logged at once.
- Producer and consumer 'pause', 'resume' and 'handled' events only dispatch to the UI.
- The asynchronous interleaving of promise chains is left out. Each operation runs to completion, and a producer's `close()` runs its 'close' handler immediately.
- `enableScreenSharing` only wraps `_setScreenShareProducer` with UI flags. The screen producer's 'trackended' event does what `DisableScreenSharing` does.
- Client.RoomClient.HandleRequest: the `verified == true` test is modelled as a boolean field, so JavaScript's loose equality on other types is not modelled.
- A peer leaving the room, and a consumer closing, only dispatch to the UI.
