/** The client's call state machine (frontend/src/store/useCallStore.js): one
    store object whose fields the socket handlers and the user actions update.
    The store's state is one record value, replaced on every `set`.
    Peer connections and media streams are opaque handles; the ghost sets
    `acquired` and `released` record every handle ever created and every one
    closed or stopped. Every outgoing `socket.emit` is appended to `outbox`.
    Each handler runs as one atomic step. */
module CallStore {
  import opened Common

  /** An opaque token for a browser media object: a peer connection or a media stream. */
  type Handle = nat

  /** The events the client emits on its socket, each addressed `to` a peer. */
  datatype Outgoing =
    | CallInvite(to: UserId)
    | CallAccept(to: UserId)
    | CallReject(to: UserId, reason: string)
    | CallEnd(to: UserId)
    | WebrtcOffer(to: UserId, offer: Payload)
    | WebrtcAnswer(to: UserId, answer: Payload)
    | WebrtcIceCandidate(to: UserId, candidate: Payload)

  /** The store's state object. zustand replaces it by a merged copy on every
      `set({...})`, which is one record update here. */
  datatype CallState = CallState(
    socket: Option<SocketId>,
    pc: Option<Handle>,
    localStream: Option<Handle>,
    remoteStream: Option<Handle>,
    inCall: bool,
    isCalling: bool,
    peerUserId: Option<UserId>,
    /** true while an invitation is waiting for the user's answer */
    ringing: bool,
    /** the caller of the pending invitation */
    incomingFrom: Option<UserId>,
    /** the callee of our own pending invitation */
    outgoingTo: Option<UserId>,
    /** re-entrancy guard of `endCall` */
    ending: bool)
  {
    /** The media handles this state holds. */
    function Held(): set<Handle>
    {
      Slot(pc) + Slot(localStream) + Slot(remoteStream)
    }

    /** Our own invitation to `from` is outstanding (`outgoingTo && outgoingTo === from`). */
    predicate AwaitingAnswerFrom(from: UserId)
    {
      Truthy(outgoingTo) && outgoingTo.value == from
    }

    /** A peer connection and two streams are held, all three pairwise
        distinct and none of them in `before`. */
    predicate HoldsFresh(before: set<Handle>)
    {
      && pc.Some? && localStream.Some? && remoteStream.Some?
      && pc.value !in before && localStream.value !in before && remoteStream.value !in before
      && pc.value != localStream.value && pc.value != remoteStream.value && localStream.value != remoteStream.value
    }
  }

  /** The state every completed teardown leaves behind: only the socket survives. */
  function Idle(socket: Option<SocketId>): (s: CallState)
    ensures s.Held() == {}
  {
    CallState(socket, None, None, None, false, false, None, false, None, None, false)
  }

  function Slot(h: Option<Handle>): set<Handle>
  {
    if h.Some? then {h.value} else {}
  }

  /** The reason `rejectCall` sends: the default parameter applies when none is given. */
  function RejectReason(reason: Option<string>): string
  {
    if reason.Some? then reason.value else "declined"
  }

  class CallSession {
    var state: CallState
    /** Every `socket.emit` of this client, in order. */
    var outbox: seq<Outgoing>
    /** The media layer's allocator: every new object gets a handle never used before. */
    var nextHandle: Handle
    ghost var acquired: set<Handle>
    ghost var released: set<Handle>

    /** Resource accounting: every handle ever acquired is either still held or
        released, never both; nothing leaks. */
    ghost predicate Accounted()
      reads this
    {
      && (forall h :: h in acquired ==> h < nextHandle)
      && acquired == state.Held() + released
      && state.Held() !! released
    }

    /** The invariant at every step boundary: accounting holds and no teardown
        is in progress (`endCall` sets `ending` and clears it within one step). */
    ghost predicate Valid()
      reads this
    {
      Accounted() && !state.ending
    }

    constructor ()
      ensures Valid()
      ensures state == Idle(None) && outbox == [] && acquired == {}
    {
      state := Idle(None);
      outbox := [];
      nextHandle := 0;
      acquired, released := {}, {};
    }

    /** `attachSocket`: adopt a new socket (none, or the one already attached, changes nothing). */
    method AttachSocket(s: Option<SocketId>)
      requires Valid()
      modifies this
      ensures Valid()
      ensures s.None? || s == old(state.socket) ==> unchanged(this)
      ensures s.Some? && s != old(state.socket) ==> state == old(state).(socket := s)
      ensures outbox == old(outbox) && acquired == old(acquired) && released == old(released)
    {
      if s.None? || s == state.socket {
        return;
      }
      state := state.(socket := s);
    }

    /** `endCall`: ignored while a teardown is in progress. Otherwise it sends
        `call:end` to the peer unless the end is remote or suppressed, releases
        the peer connection and both streams, and resets every call field. */
    method EndCall(remote: bool, dontSignal: bool)
      requires Accounted()
      modifies this
      ensures Accounted()
      ensures old(state.ending) ==> unchanged(this)
      ensures !old(state.ending) ==> state == Idle(old(state.socket))
      ensures !old(state.ending) ==> released == old(released) + old(state.Held()) && acquired == released
      ensures !old(state.ending) ==> acquired == old(acquired) && nextHandle == old(nextHandle)
      ensures !old(state.ending) ==>
        outbox == old(outbox) +
          if !remote && !dontSignal && old(state.socket).Some? && Truthy(old(state.peerUserId))
          then [CallEnd(old(state.peerUserId).value)] else []
    {
      if state.ending {
        return;
      }
      state := state.(ending := true);
      if !remote && !dontSignal && state.socket.Some? && Truthy(state.peerUserId) {
        outbox := outbox + [CallEnd(state.peerUserId.value)];
      }
      // pc.close() on the peer connection, stop() on every track of both streams
      released := released + state.Held();
      state := Idle(state.socket);
    }

    /** `preparePeer`: a silent, unsignalled teardown, then a fresh peer
        connection, local stream and remote stream for a call with `u`.
        `mediaGranted` is false when microphone access is refused; the peer
        connection created just before is then closed again (see
        `PreparePeerAsWritten` for the code as written). */
    method PreparePeer(u: UserId, mediaGranted: bool) returns (ok: bool)
      requires Valid()
      modifies this
      ensures Valid()
      ensures ok == mediaGranted
      ensures outbox == old(outbox)
      ensures ok ==> state.HoldsFresh(old(acquired))
      ensures ok ==> state == Idle(old(state.socket)).(pc := state.pc, localStream := state.localStream,
                                                       remoteStream := state.remoteStream, peerUserId := Some(u))
      ensures ok ==> released == old(released) + old(state.Held()) && acquired == old(acquired) + state.Held()
      ensures !ok ==> state == Idle(old(state.socket))
      ensures !ok ==> acquired == old(acquired) + {old(nextHandle)} && released == acquired
    {
      EndCall(false, true);
      var conn := nextHandle;                  // new RTCPeerConnection
      nextHandle := nextHandle + 1;
      acquired := acquired + {conn};
      if !mediaGranted {
        released := released + {conn};         // close the connection nobody will hold
        return false;
      }
      var local := nextHandle;                 // getUserMedia({audio: true})
      var remote := nextHandle + 1;            // new MediaStream()
      nextHandle := nextHandle + 2;
      acquired := acquired + {local, remote};
      state := state.(pc := Some(conn), localStream := Some(local), remoteStream := Some(remote), peerUserId := Some(u));
      ok := true;
    }

    /** `preparePeer` as written: when microphone access is refused the peer
        connection it has just created is neither stored nor closed. */
    method PreparePeerAsWritten(u: UserId, mediaGranted: bool) returns (ok: bool)
      requires Valid()
      modifies this
      ensures ok == mediaGranted
      ensures ok ==> Valid() && state.HoldsFresh(old(acquired)) && state.peerUserId == Some(u)
      ensures !ok ==> state == Idle(old(state.socket))
      ensures !ok ==> old(nextHandle) in acquired && old(nextHandle) !in released && old(nextHandle) !in state.Held()
      ensures !ok ==> !Accounted()
    {
      EndCall(false, true);
      var conn := nextHandle;
      nextHandle := nextHandle + 1;
      acquired := acquired + {conn};
      if !mediaGranted {
        return false;                          // getUserMedia rejected: `conn` leaks
      }
      var local := nextHandle;
      var remote := nextHandle + 1;
      nextHandle := nextHandle + 2;
      acquired := acquired + {local, remote};
      state := state.(pc := Some(conn), localStream := Some(local), remoteStream := Some(remote), peerUserId := Some(u));
      ok := true;
    }

    /** `call:invite`: show the ringing state for `from`. The session fields are
        overwritten unconditionally, even during another call; the media
        handles and `outgoingTo` are left as they are. */
    method OnCallInvite(from: UserId)
      requires Valid()
      modifies this
      ensures Valid()
      ensures state == old(state).(ringing := true, incomingFrom := Some(from), peerUserId := Some(from),
                                   isCalling := false, inCall := false)
      ensures outbox == old(outbox) && acquired == old(acquired) && released == old(released)
    {
      state := state.(ringing := true, incomingFrom := Some(from), peerUserId := Some(from), isCalling := false, inCall := false);
    }

    /** `call:accept`: ignored unless our invitation to `from` is outstanding.
        Then the caller prepares a fresh peer for `from` and sends it an offer.
        `offer` is the description the media layer creates; `negotiationOk` is
        false when creating or applying it fails. */
    method OnCallAccept(from: UserId, mediaGranted: bool, offer: Payload, negotiationOk: bool)
      requires Valid()
      modifies this
      ensures Valid()
      ensures !old(state.AwaitingAnswerFrom(from)) ==> unchanged(this)
      ensures old(state.AwaitingAnswerFrom(from)) && mediaGranted ==>
        && state.HoldsFresh(old(acquired))
        && state == Idle(old(state.socket)).(pc := state.pc, localStream := state.localStream,
                                             remoteStream := state.remoteStream, peerUserId := Some(from))
        && released == old(released) + old(state.Held())
        && outbox == old(outbox) + if negotiationOk then [WebrtcOffer(from, offer)] else []
      ensures old(state.AwaitingAnswerFrom(from)) && !mediaGranted ==>
        state == Idle(old(state.socket)) && acquired == released && outbox == old(outbox)
    {
      if !state.AwaitingAnswerFrom(from) {
        return;
      }
      state := state.(peerUserId := Some(from));
      var ok := PreparePeer(from, mediaGranted);
      if !ok || !negotiationOk {
        state := state.(isCalling := false);   // catch
        return;
      }
      outbox := outbox + [WebrtcOffer(from, offer)];
    }

    /** `call:reject`: ignored unless our invitation to `from` is outstanding;
        then the dialling state is cleared and nothing is released. */
    method OnCallReject(from: UserId, reason: string)
      requires Valid()
      modifies this
      ensures Valid()
      ensures !old(state.AwaitingAnswerFrom(from)) ==> unchanged(this)
      ensures old(state.AwaitingAnswerFrom(from)) ==>
        state == old(state).(isCalling := false, outgoingTo := None, peerUserId := None)
      ensures outbox == old(outbox) && acquired == old(acquired) && released == old(released)
    {
      if !state.AwaitingAnswerFrom(from) {
        return;
      }
      state := state.(isCalling := false, outgoingTo := None, peerUserId := None);
    }

    /** `call:end` from the peer: ignored unless it comes from `peerUserId` and
        no teardown is in progress; then a remote teardown that sends nothing back. */
    method OnCallEnd(from: UserId)
      requires Accounted()
      modifies this
      ensures Accounted()
      ensures !(old(state.peerUserId) == Some(from) && !old(state.ending)) ==> unchanged(this)
      ensures old(state.peerUserId) == Some(from) && !old(state.ending) ==>
        && state == Idle(old(state.socket))
        && released == old(released) + old(state.Held()) && acquired == released
        && outbox == old(outbox)
    {
      if state.peerUserId != Some(from) || state.ending {
        return;
      }
      EndCall(true, false);
    }

    /** `webrtc:offer`: without a peer connection, prepare one for `from`
        first; then answer `from` and enter the call. `from` is not checked
        against any pending invitation or current peer. */
    method OnWebrtcOffer(from: UserId, offer: Payload, mediaGranted: bool, answer: Payload, negotiationOk: bool)
      requires Valid()
      modifies this
      ensures Valid()
      ensures old(state.pc).None? && !mediaGranted ==>
        state == Idle(old(state.socket)) && acquired == released && outbox == old(outbox)
      ensures old(state.pc).None? && mediaGranted ==>
        && state.HoldsFresh(old(acquired))
        && released == old(released) + old(state.Held())
        && state == Idle(old(state.socket)).(pc := state.pc, localStream := state.localStream,
                                             remoteStream := state.remoteStream, peerUserId := Some(from),
                                             inCall := negotiationOk)
      ensures old(state.pc).Some? && !negotiationOk ==> unchanged(this)
      ensures old(state.pc).Some? && negotiationOk ==>
        && state == old(state).(inCall := true, isCalling := false, peerUserId := Some(from),
                                ringing := false, incomingFrom := None)
        && acquired == old(acquired) && released == old(released)
      ensures old(state.pc).Some? || mediaGranted ==>
        outbox == old(outbox) + if negotiationOk then [WebrtcAnswer(from, answer)] else []
    {
      if state.pc.None? {
        var ok := PreparePeer(from, mediaGranted);
        if !ok {
          return;                              // catch: logged only
        }
      }
      if !negotiationOk {
        return;                                // catch: logged only
      }
      outbox := outbox + [WebrtcAnswer(from, answer)];
      state := state.(inCall := true, isCalling := false, peerUserId := Some(from), ringing := false, incomingFrom := None);
    }

    /** `webrtc:answer`: without a peer connection nothing happens; an answer
        applied to the current one enters the call. */
    method OnWebrtcAnswer(answer: Payload, negotiationOk: bool)
      requires Valid()
      modifies this
      ensures Valid()
      ensures old(state.pc).None? || !negotiationOk ==> unchanged(this)
      ensures old(state.pc).Some? && negotiationOk ==> state == old(state).(inCall := true, isCalling := false)
      ensures outbox == old(outbox) && acquired == old(acquired) && released == old(released)
    {
      if state.pc.None? || !negotiationOk {
        return;
      }
      state := state.(inCall := true, isCalling := false);
    }

    /** `webrtc:ice-candidate`: the candidate is handed to the current peer
        connection when there is one and the candidate is present; the store's
        state never changes. */
    method OnRemoteIceCandidate(candidate: Option<Payload>) returns (applied: bool)
      ensures applied <==> state.pc.Some? && candidate.Some?
    {
      applied := state.pc.Some? && candidate.Some?;
    }

    /** `pc.onicecandidate` of the current peer connection: a locally gathered
        candidate is sent to the peer when there is a socket and a peer. */
    method OnLocalIceCandidate(candidate: Option<Payload>)
      requires Valid() && state.pc.Some?
      modifies this
      ensures Valid() && state == old(state)
      ensures acquired == old(acquired) && released == old(released)
      ensures outbox == old(outbox) +
        if candidate.Some? && state.socket.Some? && Truthy(state.peerUserId)
        then [WebrtcIceCandidate(state.peerUserId.value, candidate.value)] else []
    {
      if candidate.Some? && state.socket.Some? && Truthy(state.peerUserId) {
        outbox := outbox + [WebrtcIceCandidate(state.peerUserId.value, candidate.value)];
      }
    }

    /** `startCall`: without a socket nothing happens; otherwise dial the callee
        and send the invitation. Nothing is torn down or acquired. */
    method StartCall(callee: UserId)
      requires Valid()
      modifies this
      ensures Valid()
      ensures old(state.socket).None? ==> unchanged(this)
      ensures old(state.socket).Some? ==>
        && state == old(state).(isCalling := true, outgoingTo := Some(callee), peerUserId := Some(callee))
        && outbox == old(outbox) + [CallInvite(callee)]
      ensures acquired == old(acquired) && released == old(released)
    {
      if state.socket.None? {
        return;
      }
      state := state.(isCalling := true, outgoingTo := Some(callee), peerUserId := Some(callee));
      outbox := outbox + [CallInvite(callee)];
    }

    /** `acceptCall`: signal willingness to the caller; no media is acquired
        until the offer arrives. */
    method AcceptCall()
      requires Valid()
      modifies this
      ensures Valid() && state == old(state)
      ensures acquired == old(acquired) && released == old(released)
      ensures outbox == old(outbox) +
        if state.socket.Some? && Truthy(state.incomingFrom) then [CallAccept(state.incomingFrom.value)] else []
    {
      if state.socket.None? || !Truthy(state.incomingFrom) {
        return;
      }
      outbox := outbox + [CallAccept(state.incomingFrom.value)];
    }

    /** `rejectCall`: decline the pending invitation with `reason` (default
        "declined") and clear the ringing state. */
    method RejectCall(reason: Option<string>)
      requires Valid()
      modifies this
      ensures Valid()
      ensures old(state.socket).None? || !Truthy(old(state.incomingFrom)) ==> unchanged(this)
      ensures old(state.socket).Some? && Truthy(old(state.incomingFrom)) ==>
        && state == old(state).(ringing := false, incomingFrom := None, peerUserId := None)
        && outbox == old(outbox) + [CallReject(old(state.incomingFrom).value, RejectReason(reason))]
      ensures acquired == old(acquired) && released == old(released)
    {
      if state.socket.None? || !Truthy(state.incomingFrom) {
        return;
      }
      outbox := outbox + [CallReject(state.incomingFrom.value, RejectReason(reason))];
      state := state.(ringing := false, incomingFrom := None, peerUserId := None);
    }
  }
}
