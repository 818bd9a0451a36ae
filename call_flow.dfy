/** One complete voice call between two clients through the relay: what the
    caller's and the callee's `CallSession` emit (frontend/src/store/useCallStore.js)
    is forwarded by one `SocketServer` (backend/src/lib/socket.js). Each
    client's handlers are called with the arguments of the events the relay
    delivers to it; that correspondence is written out, not derived. */
module CallFlow {
  import opened Common
  import Presence
  import CallStore

  /** The relayed form of a client emit, other than an invitation (which the
      server handles with its own `call:invite` handler). */
  function AsSignal(o: CallStore.Outgoing): (r: Option<Presence.Signal>)
    ensures r.None? <==> o.CallInvite?
    ensures r.Some? ==> r.value.to == o.to
  {
    match o
    case CallInvite(_) => None
    case CallAccept(to) => Some(Presence.CallAccept(to))
    case CallReject(to, reason) => Some(Presence.CallReject(to, reason))
    case CallEnd(to) => Some(Presence.CallEnd(to))
    case WebrtcOffer(to, offer) => Some(Presence.WebrtcOffer(to, offer))
    case WebrtcAnswer(to, answer) => Some(Presence.WebrtcAnswer(to, answer))
    case WebrtcIceCandidate(to, candidate) => Some(Presence.WebrtcIceCandidate(to, Some(candidate)))
  }

  /** Alice's side: dial Bob, receive his acceptance (`call:accept` from
      "bob"), send the offer, receive the answer, hang up. She ends idle with
      every media object released, having emitted the invite, the offer and
      the end, in that order. */
  method CallerSide() returns (caller: CallStore.CallState, sent: seq<CallStore.Outgoing>)
    ensures caller == CallStore.Idle(Some("sa"))
    ensures sent == [CallStore.CallInvite("bob"), CallStore.WebrtcOffer("bob", "offer"), CallStore.CallEnd("bob")]
  {
    var alice := new CallStore.CallSession();
    alice.AttachSocket(Some("sa"));
    alice.StartCall("bob");
    alice.OnCallAccept("bob", true, "offer", true);
    alice.OnWebrtcAnswer("answer", true);
    assert alice.state.inCall;
    alice.EndCall(false, false);
    assert alice.acquired == alice.released;
    caller, sent := alice.state, alice.outbox;
  }

  /** Bob's side: receive the invitation from "alice", accept, receive her
      offer and answer it, then receive her `call:end`. He ends idle with
      every media object released, having sent back nothing after the answer. */
  method CalleeSide() returns (callee: CallStore.CallState, sent: seq<CallStore.Outgoing>)
    ensures callee == CallStore.Idle(Some("sb"))
    ensures sent == [CallStore.CallAccept("alice"), CallStore.WebrtcAnswer("alice", "answer")]
  {
    var bob := new CallStore.CallSession();
    bob.AttachSocket(Some("sb"));
    bob.OnCallInvite("alice");
    assert bob.state.ringing;
    bob.AcceptCall();
    bob.OnWebrtcOffer("alice", "offer", true, "answer", true);
    assert bob.state.inCall;
    bob.OnCallEnd("alice");
    assert bob.acquired == bob.released;
    callee, sent := bob.state, bob.outbox;
  }

  /** Both clients connected: the registry maps each user to their socket. */
  method BothOnline() returns (server: Presence.SocketServer)
    ensures fresh(server)
    ensures server.userSocketMap == map["alice" := "sa", "bob" := "sb"]
  {
    server := new Presence.SocketServer();
    server.Connect(Presence.Connection("sa", Some("alice")));
    server.Connect(Presence.Connection("sb", Some("bob")));
  }

  /** The caller's user-store record, which the invite handler looks up. */
  const AliceRecord := Presence.Caller("alice", "Alice", "alice.png")

  /** The relay run on the two clients' emits in the order the call
      interleaves them: each reaches the other client's socket stamped with the
      sender's identity. */
  method TwoPartyCall() returns (relayed: seq<Presence.Emission>)
    ensures relayed == [
      Presence.ToSocket("sb", Presence.InviteFrom(Some("alice"), Some(AliceRecord))),
      Presence.ToSocket("sa", Presence.AcceptFrom(Some("bob"))),
      Presence.ToSocket("sb", Presence.OfferFrom(Some("alice"), "offer")),
      Presence.ToSocket("sa", Presence.AnswerFrom(Some("bob"), "answer")),
      Presence.ToSocket("sb", Presence.EndFrom(Some("alice")))]
  {
    var _, a := CallerSide();
    var _, b := CalleeSide();
    var server := BothOnline();
    var ca := Presence.Connection("sa", Some("alice"));
    var cb := Presence.Connection("sb", Some("bob"));
    var before := server.outbox;
    server.OnInvite(ca, a[0].to, None, Presence.Found(AliceRecord));
    server.OnSignal(cb, AsSignal(b[0]).value);
    server.OnSignal(ca, AsSignal(a[1]).value);
    server.OnSignal(cb, AsSignal(b[1]).value);
    server.OnSignal(ca, AsSignal(a[2]).value);
    relayed := server.outbox[|before|..];
  }

  /** An invitation from a third user during a call takes the session over:
      the call is no longer shown as active, its peer connection and local
      stream stay held, and the real peer's `call:end` is then ignored because
      `peerUserId` now names the new caller. */
  method InviteDuringCall() returns (s: CallStore.CallState)
    ensures s.ringing && !s.inCall && s.peerUserId == Some("carol")
    ensures s.pc.Some? && s.localStream.Some? && s.remoteStream.Some?
  {
    var alice := new CallStore.CallSession();
    alice.AttachSocket(Some("sa"));
    alice.StartCall("bob");
    alice.OnCallAccept("bob", true, "offer", true);
    alice.OnWebrtcAnswer("answer", true);
    assert alice.state.inCall;
    alice.OnCallInvite("carol");
    alice.OnCallEnd("bob");
    s := alice.state;
  }
}
