/** Inbound requests on the signaling channel and the client's reaction to them, as
    the sequence of outward calls it makes: the acknowledgement (`accept()` or
    `reject(code, reason)`) and the state projections that follow it. */
module Signaling {
  import opened Media

  /** The fields the dispatcher reads from `request.data`; a method reads only its own. */
  datatype RequestData = RequestData(
    peerName: string,
    displayName: string,
    oldDisplayName: string,
    verified: bool,
    name: string,
    raiseHandState: bool,
    chatMessage: string,
    chatHistory: seq<string>,
    lastN: seq<string>)

  datatype Request = Request(methodName: string, data: RequestData)

  /** Calls the client makes to the signaling channel, the media engine and the UI store. */
  datatype Action =
    | Accept
    | Reject(code: int, reason: string)
    | ReceiveNotification                               // room.receiveNotification(data)
    | SetRoomActiveSpeaker(peerName: string)
    | SetPeerDisplayName(displayName: string, peerName: string)
    | ChangeDisplayName(displayName: string)            // the 'auth' request was verified
    | CloseLoginWindow
    | SetPeerRaiseHandState(peerName: string, raiseHandState: bool)
    | AddResponseMessage(chatMessage: string)
    | AddChatHistory(chatHistory: seq<string>)
    | LeaveRoom                                         // room.leave()
    | CloseChannel                                      // protoo.close(), after a grace delay
    | RemoteCloseRoom                                   // room.remoteClose(...) on disconnection
  {
    predicate IsAck() {
      Accept? || Reject?
    }
  }

  /** The request methods the dispatcher has a branch for. */
  const KnownMethods: set<string> := {
    "mediasoup-notification", "active-speaker", "display-name-changed", "auth",
    "raisehand-message", "chat-message-receive", "room-data-receive"
  }

  /** The outward calls of the request handler, in order, given the local peer name and
      the room's peers. Every known method is accepted first and exactly once; an unknown
      method is rejected with 404 and nothing else happens. */
  function Reaction(req: Request, self: string, peers: seq<Peer>): (r: seq<Action>)
    ensures |r| >= 1 && r[0].IsAck()
    ensures r[0] == Accept <==> req.methodName in KnownMethods
    ensures req.methodName !in KnownMethods ==> r == [Reject(404, "unknown method")]
    ensures forall i :: 1 <= i < |r| ==> !r[i].IsAck()
    ensures req.methodName == "active-speaker" && req.data.peerName == self ==> r == [Accept]
  {
    var d := req.data;
    if req.methodName == "mediasoup-notification" then
      [Accept, ReceiveNotification]
    else if req.methodName == "active-speaker" then
      [Accept] + (if d.peerName != self then [SetRoomActiveSpeaker(d.peerName)] else [])
    else if req.methodName == "display-name-changed" then
      [Accept] + (if HasPeer(peers, d.peerName) then [SetPeerDisplayName(d.displayName, d.peerName)] else [])
    else if req.methodName == "auth" then
      [Accept] + (if d.verified then [ChangeDisplayName(d.name)] else []) + [CloseLoginWindow]
    else if req.methodName == "raisehand-message" then
      [Accept, SetPeerRaiseHandState(d.peerName, d.raiseHandState)]
    else if req.methodName == "chat-message-receive" then
      [Accept, AddResponseMessage(d.chatMessage)]
    else if req.methodName == "room-data-receive" then
      [Accept] + (if |d.chatHistory| > 0 then [AddChatHistory(d.chatHistory)] else [])
    else
      [Reject(404, "unknown method")]
  }

  /** The `display-name-changed` branch: the named peer, if the room has it, takes the new display name. */
  function Renamed(ps: seq<Peer>, name: string, displayName: string): (r: seq<Peer>)
    ensures |r| == |ps| && Names(r) == Names(ps)
    ensures forall i :: 0 <= i < |ps| ==> r[i].consumers == ps[i].consumers
    ensures !HasPeer(ps, name) ==> r == ps
    ensures UniqueNames(ps) ==> forall i :: 0 <= i < |ps| ==>
      r[i].displayName == if ps[i].name == name then displayName else ps[i].displayName
  {
    var t := PeerIndex(ps, name);
    if t < 0 then ps
    else
      var r := ps[t := ps[t].(displayName := displayName)];
      assert Names(r) == Names(ps);
      if UniqueNames(ps) then UniqueNamesAt(ps); r else r
  }
}
