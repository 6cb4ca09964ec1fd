/** The part of the media room that the client reads and pauses: remote peers in
    iteration order, each owning the consumers through which the client receives
    that peer's audio and video. */
module Media {
  import opened Common

  datatype Kind = Audio | Video

  /** An incoming media stream. `supported` says whether the local device can
      decode it; `pauseReason` is the argument of the last `pause(...)` call. */
  datatype Consumer = Consumer(id: string, kind: Kind, supported: bool, paused: bool, pauseReason: string)

  datatype Peer = Peer(name: string, displayName: string, consumers: seq<Consumer>)

  /** Which peers a bulk operation visits: every peer, or those whose name equals the argument. */
  datatype Scope = Everyone | Named(name: string)

  predicate InScope(p: Peer, scope: Scope) {
    scope.Everyone? || p.name == scope.name
  }

  function Pause(c: Consumer, reason: string): Consumer {
    c.(paused := true, pauseReason := reason)
  }

  function Resume(c: Consumer): Consumer {
    c.(paused := false, pauseReason := "")
  }

  /** Same consumer (identity, kind and support unchanged), possibly with another pause state. */
  predicate SameStream(a: Consumer, b: Consumer) {
    a.id == b.id && a.kind == b.kind && a.supported == b.supported
  }

  /** `consumer.pause(reason)` applied to every consumer of `kind`, the others skipped. */
  function PauseKind(cs: seq<Consumer>, kind: Kind, reason: string): (r: seq<Consumer>)
    ensures |r| == |cs|
    ensures forall j :: 0 <= j < |cs| ==> SameStream(r[j], cs[j])
    ensures forall j :: 0 <= j < |cs| && cs[j].kind == kind ==> r[j].paused && r[j].pauseReason == reason
    ensures forall j :: 0 <= j < |cs| && cs[j].kind != kind ==> r[j] == cs[j]
  {
    seq(|cs|, j requires 0 <= j < |cs| => if cs[j].kind == kind then Pause(cs[j], reason) else cs[j])
  }

  /** `consumer.resume()` applied to every supported consumer of `kind`; unsupported ones are skipped. */
  function ResumeKind(cs: seq<Consumer>, kind: Kind): (r: seq<Consumer>)
    ensures |r| == |cs|
    ensures forall j :: 0 <= j < |cs| ==> SameStream(r[j], cs[j])
    ensures forall j :: 0 <= j < |cs| && cs[j].kind == kind && cs[j].supported ==> !r[j].paused
    ensures forall j :: 0 <= j < |cs| && (cs[j].kind != kind || !cs[j].supported) ==> r[j] == cs[j]
  {
    seq(|cs|, j requires 0 <= j < |cs| => if cs[j].kind == kind && cs[j].supported then Resume(cs[j]) else cs[j])
  }

  /** What `_handleConsumer` does to a consumer before receiving it: a supported
      video consumer arriving in audio-only mode is paused with 'audio-only-mode'. */
  function Admit(c: Consumer, audioOnly: bool): (r: Consumer)
    ensures SameStream(r, c)
    ensures r.paused == (c.paused || (audioOnly && c.supported && c.kind == Video))
    ensures !(audioOnly && c.supported && c.kind == Video) ==> r == c
    ensures audioOnly && c.supported && c.kind == Video ==> r.pauseReason == "audio-only-mode"
  {
    if c.supported && c.kind == Video && audioOnly then Pause(c, "audio-only-mode") else c
  }

  function AdmitAll(cs: seq<Consumer>, audioOnly: bool): (r: seq<Consumer>)
    ensures |r| == |cs| && forall j :: 0 <= j < |cs| ==> r[j] == Admit(cs[j], audioOnly)
  {
    seq(|cs|, j requires 0 <= j < |cs| => Admit(cs[j], audioOnly))
  }

  function Names(ps: seq<Peer>): (r: seq<string>)
    ensures |r| == |ps| && forall i :: 0 <= i < |ps| ==> r[i] == ps[i].name
  {
    seq(|ps|, i requires 0 <= i < |ps| => ps[i].name)
  }

  /** mediasoup-client keys its peers by name, so no two peers share one. */
  predicate UniqueNames(ps: seq<Peer>) {
    Distinct(Names(ps))
  }

  /** Two positions holding peers of the same name are the same position. */
  lemma UniqueNamesAt(ps: seq<Peer>)
    requires UniqueNames(ps)
    ensures forall i, j :: 0 <= i < |ps| && 0 <= j < |ps| && ps[i].name == ps[j].name ==> i == j
  {
    forall i, j | 0 <= i < |ps| && 0 <= j < |ps| && ps[i].name == ps[j].name ensures i == j {
      assert Names(ps)[i] == Names(ps)[j];
    }
  }

  predicate HasPeer(ps: seq<Peer>, name: string) {
    name in Names(ps)
  }

  /** `room.getPeerByName(name)`: the position of that peer, or -1 (undefined). */
  function PeerIndex(ps: seq<Peer>, name: string): (r: int)
    ensures -1 <= r < |ps|
    ensures r == -1 <==> !HasPeer(ps, name)
    ensures 0 <= r ==> ps[r].name == name
  {
    IndexOf(Names(ps), name)
  }

  /** The pause pass: every peer in scope, in room order, has its consumers of the kind paused. */
  function PauseIn(ps: seq<Peer>, scope: Scope, kind: Kind, reason: string): (r: seq<Peer>)
    ensures |r| == |ps| && Names(r) == Names(ps)
    ensures forall i :: 0 <= i < |ps| ==>
      r[i].displayName == ps[i].displayName &&
      r[i].consumers == if InScope(ps[i], scope) then PauseKind(ps[i].consumers, kind, reason) else ps[i].consumers
  {
    seq(|ps|, i requires 0 <= i < |ps| =>
      if InScope(ps[i], scope) then ps[i].(consumers := PauseKind(ps[i].consumers, kind, reason)) else ps[i])
  }

  /** The matching resume pass: supported consumers of `kind` of the peers in scope. */
  function ResumeIn(ps: seq<Peer>, scope: Scope, kind: Kind): (r: seq<Peer>)
    ensures |r| == |ps| && Names(r) == Names(ps)
    ensures forall i :: 0 <= i < |ps| ==>
      r[i].displayName == ps[i].displayName &&
      r[i].consumers == if InScope(ps[i], scope) then ResumeKind(ps[i].consumers, kind) else ps[i].consumers
  {
    seq(|ps|, i requires 0 <= i < |ps| =>
      if InScope(ps[i], scope) then ps[i].(consumers := ResumeKind(ps[i].consumers, kind)) else ps[i])
  }

  /** Looking a peer up by name and pausing its consumers is the same as scanning
      every peer for that name, because names are unique; a name nobody has changes nothing. */
  lemma PauseNamedIsLookup(ps: seq<Peer>, name: string, kind: Kind, reason: string)
    requires UniqueNames(ps)
    ensures var t := PeerIndex(ps, name);
      PauseIn(ps, Named(name), kind, reason) ==
        if t < 0 then ps else ps[t := ps[t].(consumers := PauseKind(ps[t].consumers, kind, reason))]
  {
    var t := PeerIndex(ps, name);
    var r := PauseIn(ps, Named(name), kind, reason);
    if t < 0 {
      forall i | 0 <= i < |ps| ensures r[i] == ps[i] {
        assert Names(ps)[i] == ps[i].name;
      }
    } else {
      forall i | 0 <= i < |ps| && i != t ensures ps[i].name != name {
        assert Names(ps)[i] != Names(ps)[t];
      }
    }
  }

  lemma ResumeNamedIsLookup(ps: seq<Peer>, name: string, kind: Kind)
    requires UniqueNames(ps)
    ensures var t := PeerIndex(ps, name);
      ResumeIn(ps, Named(name), kind) ==
        if t < 0 then ps else ps[t := ps[t].(consumers := ResumeKind(ps[t].consumers, kind))]
  {
    var t := PeerIndex(ps, name);
    var r := ResumeIn(ps, Named(name), kind);
    if t < 0 {
      forall i | 0 <= i < |ps| ensures r[i] == ps[i] {
        assert Names(ps)[i] == ps[i].name;
      }
    } else {
      forall i | 0 <= i < |ps| && i != t ensures ps[i].name != name {
        assert Names(ps)[i] != Names(ps)[t];
      }
    }
  }

  /** Pausing twice with the same reason is the same as pausing once. */
  lemma PauseInIdempotent(ps: seq<Peer>, scope: Scope, kind: Kind, reason: string)
    ensures PauseIn(PauseIn(ps, scope, kind, reason), scope, kind, reason) == PauseIn(ps, scope, kind, reason)
  {
    var once := PauseIn(ps, scope, kind, reason);
    forall i | 0 <= i < |ps|
      ensures PauseKind(once[i].consumers, kind, reason) == once[i].consumers || !InScope(ps[i], scope)
    {
      assert Names(once)[i] == Names(ps)[i];
    }
    forall i | 0 <= i < |ps| ensures InScope(once[i], scope) == InScope(ps[i], scope) {
      assert Names(once)[i] == Names(ps)[i];
    }
  }

  /** Pausing a kind and then resuming it for the same peers leaves every supported
      consumer of that kind playing, and every other consumer as the pause left it. */
  lemma PauseThenResume(ps: seq<Peer>, scope: Scope, kind: Kind, reason: string, i: nat, j: nat)
    requires i < |ps| && InScope(ps[i], scope) && j < |ps[i].consumers|
    ensures var after := ResumeIn(PauseIn(ps, scope, kind, reason), scope, kind);
      var c := ps[i].consumers[j];
      |after| == |ps| && j < |after[i].consumers| &&
      SameStream(after[i].consumers[j], c) &&
      (c.kind == kind && c.supported ==> !after[i].consumers[j].paused) &&
      (c.kind == kind && !c.supported ==> after[i].consumers[j] == Pause(c, reason)) &&
      (c.kind != kind ==> after[i].consumers[j] == c)
  {
    var once := PauseIn(ps, scope, kind, reason);
    assert Names(once)[i] == Names(ps)[i];
    assert InScope(once[i], scope);
  }
}
