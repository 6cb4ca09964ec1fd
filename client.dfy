/** RoomClient: the session bookkeeping a client keeps while it is in a media room.
    The signaling channel, the media engine and the capture devices are collaborators
    whose outcomes arrive as parameters; what the client records of them lives in the
    fields of the class below. */
module Client {
  import opened Common
  import opened Media
  import opened Speakers
  import opened Webcams
  import opened Signaling

  datatype RoomState = Connecting | Connected | Closed

  /** The id the media engine gives a producer when it creates one. */
  type ProducerId = nat

  /** What the webcam producer's track captures: a device at a resolution tier. */
  datatype Capture = Capture(deviceId: string, resolution: Resolution)

  datatype ProducerError =
    | CannotSend      // the room does not allow sending this kind
    | AlreadyExists   // the slot already holds a producer
    | NoSource        // no webcam selected / screen sharing unavailable
    | CaptureFailed   // getUserMedia or the screen capture rejected
    | SendFailed      // producer.send(transport) rejected; the producer is closed

  datatype Status = Done | Failed(error: ProducerError)

  /** The common course of `_setMicProducer`, `_setWebcamProducer` and
      `_setScreenShareProducer`: two synchronous guards, then the source check,
      the capture and the send, each of which can fail. */
  function ProduceStatus(canSend: bool, occupied: bool, hasSource: bool, captureOk: bool, sendOk: bool): (st: Status)
    ensures st == Done <==> canSend && !occupied && hasSource && captureOk && sendOk
    ensures !canSend ==> st == Failed(CannotSend)
    ensures canSend && occupied ==> st == Failed(AlreadyExists)
    ensures st == Failed(SendFailed) <==> canSend && !occupied && hasSource && captureOk && !sendOk
  {
    if !canSend then Failed(CannotSend)
    else if occupied then Failed(AlreadyExists)
    else if !hasSource then Failed(NoSource)
    else if !captureOk then Failed(CaptureFailed)
    else if !sendOk then Failed(SendFailed)
    else Done
  }

  /** The consumers after the eviction step of `handleActiveSpeaker(p)`: when a new
      speaker meets a full window, the video of the peer at its tail is paused. */
  function Silenced(ps: seq<Peer>, w: seq<string>, p: string): (r: seq<Peer>)
    ensures |r| == |ps| && Names(r) == Names(ps)
    ensures forall i :: 0 <= i < |ps| ==> r[i].displayName == ps[i].displayName
    ensures forall i :: 0 <= i < |ps| ==>
      r[i].consumers == if Evicts(w, p) && ps[i].name == w[LastN - 1]
                        then PauseKind(ps[i].consumers, Video, "not-speaking")
                        else ps[i].consumers
  {
    if Evicts(w, p) then PauseIn(ps, Named(w[LastN - 1]), Video, "not-speaking") else ps
  }

  /** A new speaker's arrival, consumer by consumer: the evicted peer's video is paused
      with 'not-speaking' and stays paused, the speaker's supported video is resumed,
      and every other consumer is left as it was. */
  lemma NewSpeakerConsumers(ps: seq<Peer>, w: seq<string>, p: string, i: nat, j: nat)
    requires p !in w && i < |ps| && j < |ps[i].consumers|
    ensures var after := ResumeIn(Silenced(ps, w, p), Named(p), Video);
      var c := ps[i].consumers[j];
      var evicted := Evicts(w, p) && ps[i].name == w[LastN - 1];
      |after| == |ps| && after[i].name == ps[i].name && j < |after[i].consumers| &&
      SameStream(after[i].consumers[j], c) &&
      (evicted && c.kind == Video ==> after[i].consumers[j] == Pause(c, "not-speaking")) &&
      (ps[i].name == p && c.kind == Video && c.supported ==> after[i].consumers[j] == Resume(c)) &&
      (c.kind == Audio || (ps[i].name == p && !c.supported) || (ps[i].name != p && !evicted) ==>
        after[i].consumers[j] == c)
  {
    var mid := Silenced(ps, w, p);
    var after := ResumeIn(mid, Named(p), Video);
    assert Names(mid)[i] == Names(ps)[i];
    assert Names(after)[i] == Names(mid)[i];
    if Evicts(w, p) && ps[i].name == w[LastN - 1] {
      assert w[LastN - 1] in w;
      assert ps[i].name != p;
    }
  }

  /** The inner pause loop over one peer's consumers: those of another kind are skipped. */
  method PauseEach(cs: seq<Consumer>, kind: Kind, reason: string) returns (r: seq<Consumer>)
    ensures r == PauseKind(cs, kind, reason)
  {
    r := cs;
    for j := 0 to |cs|
      invariant |r| == |cs|
      invariant forall n :: 0 <= n < j ==> r[n] == PauseKind(cs, kind, reason)[n]
      invariant forall n :: j <= n < |cs| ==> r[n] == cs[n]
    {
      if r[j].kind != kind {
        continue;
      }
      r := r[j := Pause(r[j], reason)];
    }
  }

  /** The inner resume loop over one peer's consumers: another kind, or a stream the
      device cannot decode, is skipped. */
  method ResumeEach(cs: seq<Consumer>, kind: Kind) returns (r: seq<Consumer>)
    ensures r == ResumeKind(cs, kind)
  {
    r := cs;
    for j := 0 to |cs|
      invariant |r| == |cs|
      invariant forall n :: 0 <= n < j ==> r[n] == ResumeKind(cs, kind)[n]
      invariant forall n :: j <= n < |cs| ==> r[n] == cs[n]
    {
      if r[j].kind != kind || !r[j].supported {
        continue;
      }
      r := r[j := Resume(r[j])];
    }
  }

  /** `_handlePeer` passing each of a new peer's consumers, in order, to `_handleConsumer`. */
  method AdmitEach(cs: seq<Consumer>, audioOnly: bool) returns (r: seq<Consumer>)
    ensures r == AdmitAll(cs, audioOnly)
  {
    r := cs;
    for j := 0 to |cs|
      invariant |r| == |cs|
      invariant forall n :: 0 <= n < j ==> r[n] == Admit(cs[n], audioOnly)
      invariant forall n :: j <= n < |cs| ==> r[n] == cs[n]
    {
      if r[j].supported && r[j].kind == Video && audioOnly {
        r := r[j := Pause(r[j], "audio-only-mode")];
      }
    }
  }

  class RoomClient {
    /** The local peer name. */
    const peerName: string
    /** `room.canSend('audio')` and `room.canSend('video')` of the joined room. */
    const canSendAudio: bool
    const canSendVideo: bool

    var closed: bool
    /** The room state published to the UI store. */
    var roomState: RoomState
    /** The active-speaker window. */
    var lastN: seq<string>
    /** The webcam map, in key insertion order. */
    var webcams: seq<Device>
    /** `_webcam.device` and `_webcam.resolution`. */
    var webcam: Option<Device>
    var resolution: Resolution
    /** The `canChangeWebcam` flag published to the UI store. */
    var canChangeWebcam: bool
    /** The three producer slots. */
    var micProducer: Option<ProducerId>
    var webcamProducer: Option<ProducerId>
    var screenSharingProducer: Option<ProducerId>
    /** What the webcam producer is capturing. */
    var webcamTrack: Option<Capture>
    /** Every producer that has been closed. */
    var closedProducers: set<ProducerId>
    /** `room.peers`. */
    var peers: seq<Peer>
    /** `me.audioOnly` in the UI store. */
    var audioOnly: bool
    /** Calls made to the signaling channel, the media engine and the UI store. */
    var actions: seq<Action>

    ghost predicate Valid()
      reads this
    {
      |lastN| <= LastN &&
      UniqueNames(peers) &&
      Distinct(Ids(webcams)) &&
      (webcamProducer.None? <==> webcamTrack.None?)
    }

    constructor (peerName: string, canSendAudio: bool, canSendVideo: bool)
      ensures Valid()
      ensures this.peerName == peerName && this.canSendAudio == canSendAudio && this.canSendVideo == canSendVideo
      ensures !closed && roomState == Connecting && lastN == [] && peers == [] && !audioOnly && actions == []
      ensures webcams == [] && webcam == None && resolution == Hd && !canChangeWebcam
      ensures micProducer == None && webcamProducer == None && screenSharingProducer == None
      ensures webcamTrack == None && closedProducers == {}
    {
      this.peerName := peerName;
      this.canSendAudio := canSendAudio;
      this.canSendVideo := canSendVideo;
      closed := false;
      roomState := Connecting;
      lastN := [];
      webcams := [];
      webcam := None;
      resolution := Hd;
      canChangeWebcam := false;
      micProducer := None;
      webcamProducer := None;
      screenSharingProducer := None;
      webcamTrack := None;
      closedProducers := {};
      peers := [];
      audioOnly := false;
      actions := [];
    }

    // -------------------------------------------------------------------------
    // Lifecycle

    /** `close()`: the first call leaves the room, schedules the channel close and
        publishes 'closed'; any later call does nothing. */
    method Close()
      modifies this`closed, this`roomState, this`actions
      ensures closed
      ensures old(closed) ==> roomState == old(roomState) && actions == old(actions)
      ensures !old(closed) ==> roomState == Closed && actions == old(actions) + [LeaveRoom, CloseChannel]
    {
      if closed {
        return;
      }
      closed := true;
      actions := actions + [LeaveRoom, CloseChannel];
      roomState := Closed;
    }

    /** The channel's 'close' event: closes the client unless it is already closed. */
    method OnChannelClose()
      modifies this`closed, this`roomState, this`actions
      ensures closed
      ensures old(closed) ==> roomState == old(roomState) && actions == old(actions)
      ensures !old(closed) ==> roomState == Closed && actions == old(actions) + [LeaveRoom, CloseChannel]
    {
      if closed {
        return;
      }
      Close();
    }

    /** The channel's 'disconnected' event: the room is closed remotely (a failure
        there is swallowed) and the state goes back to 'connecting'. */
    method OnDisconnected()
      modifies this`roomState, this`actions
      ensures roomState == Connecting && actions == old(actions) + [RemoteCloseRoom]
    {
      actions := actions + [RemoteCloseRoom];
      roomState := Connecting;
    }

    /** The channel's 'request' event. */
    method HandleRequest(req: Request)
      requires Valid()
      modifies this`lastN, this`peers, this`actions
      ensures Valid()
      ensures actions == old(actions) + Reaction(req, peerName, old(peers))
      ensures lastN == if req.methodName == "room-data-receive" then Synced(old(lastN), req.data.lastN) else old(lastN)
      ensures peers == if req.methodName == "display-name-changed"
                       then Renamed(old(peers), req.data.peerName, req.data.displayName)
                       else old(peers)
    {
      var m, d := req.methodName, req.data;
      var out: seq<Action>;
      if m == "mediasoup-notification" {
        out := [Accept, ReceiveNotification];
      } else if m == "active-speaker" {
        out := [Accept];
        if d.peerName != peerName {
          out := out + [SetRoomActiveSpeaker(d.peerName)];
        }
      } else if m == "display-name-changed" {
        out := [Accept];
        var t := PeerIndex(peers, d.peerName);
        if t >= 0 {
          peers := peers[t := peers[t].(displayName := d.displayName)];
          out := out + [SetPeerDisplayName(d.displayName, d.peerName)];
        }
      } else if m == "auth" {
        out := [Accept];
        if d.verified {
          out := out + [ChangeDisplayName(d.name)];
        }
        out := out + [CloseLoginWindow];
      } else if m == "raisehand-message" {
        out := [Accept, SetPeerRaiseHandState(d.peerName, d.raiseHandState)];
      } else if m == "chat-message-receive" {
        out := [Accept, AddResponseMessage(d.chatMessage)];
      } else if m == "room-data-receive" {
        out := [Accept];
        if |d.chatHistory| > 0 {
          out := out + [AddChatHistory(d.chatHistory)];
        }
        if |d.lastN| > 0 {
          lastN := d.lastN;
          if |d.lastN| > LastN {
            lastN := lastN[..LastN];
          }
        }
      } else {
        out := [Reject(404, "unknown method")];
      }
      actions := actions + out;
    }

    // -------------------------------------------------------------------------
    // Active speakers

    /** `handleActiveSpeaker(p)`. A listed speaker moves to the front and nothing else
        happens. A new speaker pops the tail of a full window and pauses that peer's
        video, goes to the front, and has its supported video resumed. `ok` is false
        where a `getPeerByName` lookup comes back undefined and reading its consumers
        throws, leaving what was done up to that point. */
    method HandleActiveSpeaker(p: string) returns (ok: bool)
      requires Valid()
      modifies this`lastN, this`peers
      ensures Valid()
      ensures p in old(lastN) ==> ok && lastN == Promote(old(lastN), p) && peers == old(peers)
      ensures Evicts(old(lastN), p) && !HasPeer(old(peers), old(lastN)[LastN - 1]) ==>
        !ok && lastN == old(lastN)[..LastN - 1] && peers == old(peers)
      ensures p !in old(lastN) && !(Evicts(old(lastN), p) && !HasPeer(old(peers), old(lastN)[LastN - 1])) ==>
        ok == HasPeer(old(peers), p) && lastN == Promote(old(lastN), p) &&
        peers == ResumeIn(Silenced(old(peers), old(lastN), p), Named(p), Video)
    {
      var index := IndexOf(lastN, p);
      if index > -1 {
        lastN := lastN[..index] + lastN[index + 1..];
        lastN := [p] + lastN;
        return true;
      }
      if |lastN| == LastN {
        var notSpeaker := lastN[|lastN| - 1];
        lastN := lastN[..|lastN| - 1];
        var t := PeerIndex(peers, notSpeaker);
        if t < 0 {
          return false;
        }
        PauseNamedIsLookup(peers, notSpeaker, Video, "not-speaking");
        var silenced := PauseEach(peers[t].consumers, Video, "not-speaking");
        peers := peers[t := peers[t].(consumers := silenced)];
      }
      lastN := [p] + lastN;
      var s := PeerIndex(peers, p);
      if s < 0 {
        ResumeNamedIsLookup(peers, p, Video);
        return false;
      }
      ResumeNamedIsLookup(peers, p, Video);
      var resumed := ResumeEach(peers[s].consumers, Video);
      peers := peers[s := peers[s].(consumers := resumed)];
      ok := true;
    }

    // -------------------------------------------------------------------------
    // Bulk pause and resume of consumers

    /** The pause loop over `room.peers`, restricted to a scope. */
    method PauseConsumers(scope: Scope, kind: Kind, reason: string)
      requires Valid()
      modifies this`peers
      ensures Valid() && peers == PauseIn(old(peers), scope, kind, reason)
    {
      var i := 0;
      while i < |peers|
        invariant 0 <= i <= |peers| == |old(peers)|
        invariant forall m :: 0 <= m < i ==> peers[m] == PauseIn(old(peers), scope, kind, reason)[m]
        invariant forall m :: i <= m < |peers| ==> peers[m] == old(peers)[m]
      {
        if InScope(peers[i], scope) {
          var cs := PauseEach(peers[i].consumers, kind, reason);
          peers := peers[i := peers[i].(consumers := cs)];
        }
        i := i + 1;
      }
    }

    /** The resume loop over `room.peers`, restricted to a scope. */
    method ResumeConsumers(scope: Scope, kind: Kind)
      requires Valid()
      modifies this`peers
      ensures Valid() && peers == ResumeIn(old(peers), scope, kind)
    {
      var i := 0;
      while i < |peers|
        invariant 0 <= i <= |peers| == |old(peers)|
        invariant forall m :: 0 <= m < i ==> peers[m] == ResumeIn(old(peers), scope, kind)[m]
        invariant forall m :: i <= m < |peers| ==> peers[m] == old(peers)[m]
      {
        if InScope(peers[i], scope) {
          var cs := ResumeEach(peers[i].consumers, kind);
          peers := peers[i := peers[i].(consumers := cs)];
        }
        i := i + 1;
      }
    }

    method MutePeerAudio(name: string)
      requires Valid()
      modifies this`peers
      ensures Valid() && peers == PauseIn(old(peers), Named(name), Audio, "mute-audio")
    {
      PauseConsumers(Named(name), Audio, "mute-audio");
    }

    method UnmutePeerAudio(name: string)
      requires Valid()
      modifies this`peers
      ensures Valid() && peers == ResumeIn(old(peers), Named(name), Audio)
    {
      ResumeConsumers(Named(name), Audio);
    }

    method PausePeerVideo(name: string)
      requires Valid()
      modifies this`peers
      ensures Valid() && peers == PauseIn(old(peers), Named(name), Video, "pause-video")
    {
      PauseConsumers(Named(name), Video, "pause-video");
    }

    method ResumePeerVideo(name: string)
      requires Valid()
      modifies this`peers
      ensures Valid() && peers == ResumeIn(old(peers), Named(name), Video)
    {
      ResumeConsumers(Named(name), Video);
    }

    /** `enableAudioOnly()`: closes the webcam producer if there is one, pauses every
        peer's video and publishes audio-only mode. */
    method EnableAudioOnly()
      requires Valid()
      modifies this`webcamProducer, this`webcamTrack, this`closedProducers, this`peers, this`audioOnly
      ensures Valid()
      ensures webcamProducer.None? && webcamTrack.None?
      ensures closedProducers == old(closedProducers) + (if old(webcamProducer).Some? then {old(webcamProducer).value} else {})
      ensures peers == PauseIn(old(peers), Everyone, Video, "audio-only-mode")
      ensures audioOnly
    {
      if webcamProducer.Some? {
        OnWebcamProducerClose();
      }
      PauseConsumers(Everyone, Video, "audio-only-mode");
      audioOnly := true;
    }

    /** `disableAudioOnly()`: re-enables the webcam when there is no webcam producer and
        video may be sent (whatever that attempt yields), then resumes every peer's
        supported video and leaves audio-only mode. */
    method DisableAudioOnly(enumerated: Option<seq<Device>>, captureOk: bool, sendOk: bool, id: ProducerId)
      requires Valid()
      modifies this`webcams, this`webcam, this`canChangeWebcam, this`webcamProducer, this`webcamTrack
      modifies this`closedProducers, this`peers, this`audioOnly
      ensures Valid()
      ensures old(webcamProducer).None? && canSendVideo ==> WebcamEnabled(enumerated, captureOk, sendOk, id)
      ensures old(webcamProducer).Some? || !canSendVideo ==>
        webcams == old(webcams) && webcam == old(webcam) && canChangeWebcam == old(canChangeWebcam) &&
        webcamProducer == old(webcamProducer) && webcamTrack == old(webcamTrack) &&
        closedProducers == old(closedProducers)
      ensures peers == ResumeIn(old(peers), Everyone, Video)
      ensures !audioOnly
    {
      if webcamProducer.None? && canSendVideo {
        EnableWebcam(enumerated, captureOk, sendOk, id);
      }
      ResumeConsumers(Everyone, Video);
      audioOnly := false;
    }

    /** `_handleConsumer` for a consumer the peer `name` has just added. */
    method AdmitConsumer(name: string, c: Consumer)
      requires Valid() && HasPeer(peers, name)
      modifies this`peers
      ensures Valid()
      ensures var t := PeerIndex(old(peers), name);
        peers == old(peers)[t := old(peers)[t].(consumers := old(peers)[t].consumers + [Admit(c, audioOnly)])]
    {
      var t := PeerIndex(peers, name);
      var admitted := Admit(c, audioOnly);
      peers := peers[t := peers[t].(consumers := peers[t].consumers + [admitted])];
      assert Names(peers) == Names(old(peers));
    }

    /** `_handlePeer` for a peer the room has just added: each of its consumers goes
        through `_handleConsumer`. */
    method AdmitPeer(p: Peer)
      requires Valid() && !HasPeer(peers, p.name)
      modifies this`peers
      ensures Valid()
      ensures peers == old(peers) + [p.(consumers := AdmitAll(p.consumers, audioOnly))]
    {
      var cs := AdmitEach(p.consumers, audioOnly);
      peers := peers + [p.(consumers := cs)];
      assert Names(peers) == Names(old(peers)) + [p.name];
    }

    // -------------------------------------------------------------------------
    // Webcam selection

    /** `_updateWebcams()`: the map is reset, rebuilt from the enumeration and the
        selection is fixed up. A failed enumeration leaves the map empty and the
        selection untouched. */
    method UpdateWebcams(enumerated: Option<seq<Device>>) returns (ok: bool)
      requires Valid()
      modifies this`webcams, this`webcam, this`canChangeWebcam
      ensures Valid()
      ensures ok == enumerated.Some?
      ensures webcams == if ok then Collect(enumerated.value) else []
      ensures webcam == if ok then Reselect(webcams, old(webcam)) else old(webcam)
      ensures canChangeWebcam == if ok then |webcams| >= 2 else old(canChangeWebcam)
    {
      webcams := [];
      if enumerated.None? {
        return false;
      }
      var devices := enumerated.value;
      for i := 0 to |devices|
        invariant webcams == Collect(devices[..i])
        invariant webcam == old(webcam)
      {
        assert devices[..i + 1][..i] == devices[..i];
        if devices[i].kind != VideoInput {
          continue;
        }
        webcams := Put(webcams, devices[i]);
      }
      assert devices[..|devices|] == devices;
      CollectWellFormed(devices);
      if |webcams| == 0 {
        webcam := None;
      } else if !(webcam.Some? && webcam.value.deviceId in Ids(webcams)) {
        webcam := Some(webcams[0]);
      }
      canChangeWebcam := |webcams| >= 2;
      ok := true;
    }

    /** `changeWebcam()`: refreshes the map, advances the selection cyclically, resets
        the resolution to hd and swaps a new track into the webcam producer. A failure
        after the refresh keeps the advanced selection and the old track. */
    method ChangeWebcam(enumerated: Option<seq<Device>>, captureOk: bool, replaceOk: bool) returns (ok: bool)
      requires Valid()
      modifies this`webcams, this`webcam, this`canChangeWebcam, this`resolution, this`webcamTrack
      ensures Valid()
      ensures webcams == if enumerated.Some? then Collect(enumerated.value) else []
      ensures canChangeWebcam == if enumerated.Some? then |webcams| >= 2 else old(canChangeWebcam)
      ensures enumerated.None? ==> webcam == old(webcam) && resolution == old(resolution)
      ensures enumerated.Some? ==> webcam == NextWebcam(webcams, Reselect(webcams, old(webcam))) && resolution == Hd
      ensures ok == (enumerated.Some? && webcam.Some? && captureOk && webcamProducer.Some? && replaceOk)
      ensures webcamTrack == if ok then Some(Capture(webcam.value.deviceId, Hd)) else old(webcamTrack)
    {
      var refreshed := UpdateWebcams(enumerated);
      if !refreshed {
        return false;
      }
      webcam := NextWebcam(webcams, webcam);
      resolution := Hd;
      if webcam.None? || !captureOk || webcamProducer.None? || !replaceOk {
        return false;
      }
      webcamTrack := Some(Capture(webcam.value.deviceId, resolution));
      ok := true;
    }

    /** `changeWebcamResolution()`: moves to the next tier and swaps a new track into
        the webcam producer; on any failure the tier goes back to what it was. */
    method ChangeWebcamResolution(captureOk: bool, replaceOk: bool) returns (ok: bool)
      requires Valid()
      modifies this`resolution, this`webcamTrack
      ensures Valid()
      ensures ok == (webcam.Some? && captureOk && webcamProducer.Some? && replaceOk)
      ensures resolution == if ok then NextResolution(old(resolution)) else old(resolution)
      ensures webcamTrack == if ok then Some(Capture(webcam.value.deviceId, resolution)) else old(webcamTrack)
    {
      var oldResolution := resolution;
      resolution := NextResolution(oldResolution);
      if webcam.None? || !captureOk || webcamProducer.None? || !replaceOk {
        resolution := oldResolution;
        return false;
      }
      webcamTrack := Some(Capture(webcam.value.deviceId, resolution));
      ok := true;
    }

    // -------------------------------------------------------------------------
    // Producer slots

    /** `_setMicProducer()`, with the capture and send outcomes and the new producer's id as inputs. */
    method SetMicProducer(captureOk: bool, sendOk: bool, id: ProducerId) returns (st: Status)
      requires Valid()
      modifies this`micProducer, this`closedProducers
      ensures Valid()
      ensures st == ProduceStatus(canSendAudio, old(micProducer).Some?, true, captureOk, sendOk)
      ensures micProducer == if st == Done then Some(id) else old(micProducer)
      ensures closedProducers == if st == Failed(SendFailed) then old(closedProducers) + {id} else old(closedProducers)
    {
      if !canSendAudio {
        return Failed(CannotSend);
      }
      if micProducer.Some? {
        return Failed(AlreadyExists);
      }
      if !captureOk {
        return Failed(CaptureFailed);
      }
      if !sendOk {
        closedProducers := closedProducers + {id};
        return Failed(SendFailed);
      }
      micProducer := Some(id);
      st := Done;
    }

    /** What `_setWebcamProducer` leaves in the webcam slot, its track and the closed producers. */
    twostate predicate WebcamSlotAfter(st: Status, id: ProducerId)
      reads this
    {
      webcamProducer == (if st == Done then Some(id) else old(webcamProducer)) &&
      webcamTrack == (if st == Done && webcam.Some? then Some(Capture(webcam.value.deviceId, resolution)) else old(webcamTrack)) &&
      closedProducers == (if st == Failed(SendFailed) then old(closedProducers) + {id} else old(closedProducers))
    }

    /** `_setWebcamProducer()`: like the mic, and it also needs a selected device. */
    method SetWebcamProducer(captureOk: bool, sendOk: bool, id: ProducerId) returns (st: Status)
      requires Valid()
      modifies this`webcamProducer, this`webcamTrack, this`closedProducers
      ensures Valid()
      ensures st == ProduceStatus(canSendVideo, old(webcamProducer).Some?, webcam.Some?, captureOk, sendOk)
      ensures WebcamSlotAfter(st, id)
    {
      if !canSendVideo {
        return Failed(CannotSend);
      }
      if webcamProducer.Some? {
        return Failed(AlreadyExists);
      }
      if webcam.None? {
        return Failed(NoSource);
      }
      if !captureOk {
        return Failed(CaptureFailed);
      }
      if !sendOk {
        closedProducers := closedProducers + {id};
        return Failed(SendFailed);
      }
      webcamProducer := Some(id);
      webcamTrack := Some(Capture(webcam.value.deviceId, resolution));
      st := Done;
    }

    /** `_setScreenShareProducer()`: there is no guard against an existing screen
        producer, so a success overwrites the slot. */
    method SetScreenShareProducer(available: bool, captureOk: bool, sendOk: bool, id: ProducerId) returns (st: Status)
      requires Valid()
      modifies this`screenSharingProducer, this`closedProducers
      ensures Valid()
      ensures st == ProduceStatus(canSendVideo, false, available, captureOk, sendOk)
      ensures screenSharingProducer == if st == Done then Some(id) else old(screenSharingProducer)
      ensures closedProducers == if st == Failed(SendFailed) then old(closedProducers) + {id} else old(closedProducers)
    {
      if !canSendVideo {
        return Failed(CannotSend);
      }
      if !available {
        return Failed(NoSource);
      }
      if !captureOk {
        return Failed(CaptureFailed);
      }
      if !sendOk {
        closedProducers := closedProducers + {id};
        return Failed(SendFailed);
      }
      screenSharingProducer := Some(id);
      st := Done;
    }

    /** The mic producer's 'close' event empties the mic slot. */
    method OnMicProducerClose()
      requires Valid() && micProducer.Some?
      modifies this`micProducer, this`closedProducers
      ensures Valid()
      ensures micProducer == None && closedProducers == old(closedProducers) + {old(micProducer).value}
    {
      closedProducers := closedProducers + {micProducer.value};
      micProducer := None;
    }

    /** The webcam producer's 'close' event empties the webcam slot. */
    method OnWebcamProducerClose()
      requires Valid() && webcamProducer.Some?
      modifies this`webcamProducer, this`webcamTrack, this`closedProducers
      ensures Valid()
      ensures webcamProducer == None && webcamTrack == None
      ensures closedProducers == old(closedProducers) + {old(webcamProducer).value}
    {
      closedProducers := closedProducers + {webcamProducer.value};
      webcamProducer := None;
      webcamTrack := None;
    }

    /** The 'close' event of screen producer `id`: its handler calls
        `disableScreenSharing()`, which closes whatever producer the slot holds, and
        nothing empties the slot. */
    method OnScreenSharingProducerClose(id: ProducerId)
      requires Valid()
      modifies this`closedProducers
      ensures Valid()
      ensures closedProducers == old(closedProducers) + {id} +
        (if screenSharingProducer.Some? then {screenSharingProducer.value} else {})
    {
      closedProducers := closedProducers + {id};
      DisableScreenSharing();
    }

    /** `disableScreenSharing()`, also run by the screen producer's 'trackended'
        event: closes the producer in the slot (a TypeError, swallowed, when there is
        none) and leaves the slot as it is. */
    method DisableScreenSharing()
      requires Valid()
      modifies this`closedProducers
      ensures Valid()
      ensures closedProducers == old(closedProducers) +
        (if screenSharingProducer.Some? then {screenSharingProducer.value} else {})
    {
      if screenSharingProducer.Some? {
        closedProducers := closedProducers + {screenSharingProducer.value};
      }
    }

    /** `disableWebcam()`: closes the webcam producer, whose 'close' event empties the
        slot; with no producer the TypeError is swallowed and nothing changes. */
    method DisableWebcam()
      requires Valid()
      modifies this`webcamProducer, this`webcamTrack, this`closedProducers
      ensures Valid()
      ensures webcamProducer == None && webcamTrack == None
      ensures closedProducers == old(closedProducers) + (if old(webcamProducer).Some? then {old(webcamProducer).value} else {})
    {
      if webcamProducer.Some? {
        OnWebcamProducerClose();
      }
    }

    /** What `enableWebcam()` leaves behind: the refreshed map and selection and, when
        the enumeration succeeded, the outcome of `_setWebcamProducer`. */
    twostate predicate WebcamEnabled(enumerated: Option<seq<Device>>, captureOk: bool, sendOk: bool, id: ProducerId)
      reads this
    {
      webcams == (if enumerated.Some? then Collect(enumerated.value) else []) &&
      webcam == (if enumerated.Some? then Reselect(webcams, old(webcam)) else old(webcam)) &&
      canChangeWebcam == (if enumerated.Some? then |webcams| >= 2 else old(canChangeWebcam)) &&
      if enumerated.Some? then
        WebcamSlotAfter(ProduceStatus(canSendVideo, old(webcamProducer).Some?, webcam.Some?, captureOk, sendOk), id)
      else
        webcamProducer == old(webcamProducer) && webcamTrack == old(webcamTrack) &&
        closedProducers == old(closedProducers)
    }

    /** `enableWebcam()`: refresh the map, then try to create the webcam producer; every
        failure is swallowed. */
    method EnableWebcam(enumerated: Option<seq<Device>>, captureOk: bool, sendOk: bool, id: ProducerId)
      requires Valid()
      modifies this`webcams, this`webcam, this`canChangeWebcam, this`webcamProducer, this`webcamTrack
      modifies this`closedProducers
      ensures Valid()
      ensures WebcamEnabled(enumerated, captureOk, sendOk, id)
    {
      var refreshed := UpdateWebcams(enumerated);
      if refreshed {
        var _ := SetWebcamProducer(captureOk, sendOk, id);
      }
    }
  }
}
