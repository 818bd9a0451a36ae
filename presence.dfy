/** The server's presence registry and signalling relay: the module-level
    `userSocketMap`, the `getOnlineUsers` broadcast after every connect and
    disconnect, and the handlers that forward call signalling to the addressed
    user's socket (backend/src/lib/socket.js). */
module Presence {
  import opened Common

  /** Display data the server attaches to a forwarded invitation. */
  datatype Caller = Caller(id: UserId, fullName: string, profilePic: string)

  /** One live connection: its socket id and the `userId` handshake parameter, if any. */
  datatype Connection = Connection(socketId: SocketId, userId: Option<string>)

  /** The six signalling events, other than invitations, that a client addresses `to` a peer. */
  datatype Signal =
    | CallAccept(to: UserId)
    | CallReject(to: UserId, reason: string)
    | CallEnd(to: UserId)
    | WebrtcOffer(to: UserId, offer: Payload)
    | WebrtcAnswer(to: UserId, answer: Payload)
    | WebrtcIceCandidate(to: UserId, candidate: Option<Payload>)

  /** Events the server pushes to clients. Relayed events carry `from` (the
      sender's handshake `userId`) and never the `to` field. */
  datatype ServerEvent =
    | GetOnlineUsers(userIds: seq<UserId>)
    | InviteFrom(from: Option<string>, fromUser: Option<Caller>)
    | AcceptFrom(from: Option<string>)
    | RejectFrom(from: Option<string>, reason: string)
    | EndFrom(from: Option<string>)
    | OfferFrom(from: Option<string>, offer: Payload)
    | AnswerFrom(from: Option<string>, answer: Payload)
    | IceCandidateFrom(from: Option<string>, candidate: Option<Payload>)
    | NewMessage(message: Message)
    | MessagesRead(senderId: UserId, receiverId: Option<UserId>)

  /** `io.emit(...)` reaches every connection; `io.to(id).emit(...)` one socket. */
  datatype Emission = ToAll(event: ServerEvent) | ToSocket(socketId: SocketId, event: ServerEvent)

  /** Outcome of looking the caller up in the user store for an invitation. */
  datatype CallerLookup = Found(caller: Caller) | NotFound | LookupFailed

  predicate Distinct(s: seq<UserId>)
  {
    forall i, j :: 0 <= i < j < |s| ==> s[i] != s[j]
  }

  /** The property key `userSocketMap[userId]` touches: an absent handshake
      parameter is the JavaScript value `undefined`, which names the key "undefined". */
  function KeyOf(userId: Option<string>): (k: UserId)
    ensures userId.Some? ==> k == userId.value
  {
    match userId
    case Some(u) => u
    case None => "undefined"
  }

  /** `keys` with `x` deleted; the remaining keys keep their enumeration order. */
  function Remove(keys: seq<UserId>, x: UserId): (r: seq<UserId>)
    ensures forall u :: u in r <==> u in keys && u != x
    ensures Distinct(keys) ==> Distinct(r)
    ensures |r| <= |keys|
    ensures x !in keys ==> r == keys
  {
    if keys == [] then []
    else if keys[0] == x then Remove(keys[1..], x)
    else
      var rest := Remove(keys[1..], x);
      DistinctCons(keys[0], keys[1..]);
      DistinctCons(keys[0], rest);
      [keys[0]] + rest
  }

  /** Deleting a key from a list that ends in `y` deletes it from the rest and
      keeps `y` last unless it is the deleted key: the surviving keys keep
      their relative order. */
  lemma {:induction false} RemoveSnoc(keys: seq<UserId>, y: UserId, x: UserId)
    ensures Remove(keys + [y], x) == Remove(keys, x) + (if y == x then [] else [y])
  {
    if keys == [] {
      assert keys + [y] == [y];
    } else {
      assert (keys + [y])[1..] == keys[1..] + [y];
      RemoveSnoc(keys[1..], y, x);
    }
  }

  lemma DistinctCons(x: UserId, r: seq<UserId>)
    ensures Distinct([x] + r) <==> x !in r && Distinct(r)
  {
    var s := [x] + r;
    assert forall j :: 0 <= j < |r| ==> s[j + 1] == r[j];
    if x in r {
      var j :| 0 <= j < |r| && r[j] == x;
      assert s[0] == s[j + 1];
    }
  }

  // ---------------------------------------------------------------------------
  // The registry as a function of the connect/disconnect history

  datatype RegistryOp = Connected(conn: Connection) | Disconnected(conn: Connection)

  /** The effect of one connect or disconnect on `userSocketMap`. */
  function Apply(m: map<UserId, SocketId>, op: RegistryOp): map<UserId, SocketId>
  {
    match op
    case Connected(c) => if Truthy(c.userId) then m[c.userId.value := c.socketId] else m
    case Disconnected(c) => m - {KeyOf(c.userId)}
  }

  /** The registry after a history of connects and disconnects, starting from `m`. */
  function Replay(m: map<UserId, SocketId>, ops: seq<RegistryOp>): map<UserId, SocketId>
  {
    if ops == [] then m else Apply(Replay(m, ops[..|ops| - 1]), ops[|ops| - 1])
  }

  /** Reference definition: what the latest event concerning `u` says, scanning
      the history backwards; `None` when `u` was last disconnected or never connected. */
  function LatestFor(ops: seq<RegistryOp>, u: UserId): Option<SocketId>
  {
    if ops == [] then None
    else
      var op := ops[|ops| - 1];
      match op
      case Connected(c) =>
        if Truthy(c.userId) && c.userId.value == u then Some(c.socketId) else LatestFor(ops[..|ops| - 1], u)
      case Disconnected(c) =>
        if KeyOf(c.userId) == u then None else LatestFor(ops[..|ops| - 1], u)
  }

  function Lookup(m: map<UserId, SocketId>, u: UserId): Option<SocketId>
  {
    if u in m then Some(m[u]) else None
  }

  /** For every history of connects and disconnects, a lookup reflects exactly the
      most recent registration of that user, or absence after a disconnect. */
  lemma {:induction false} ReplayReflectsLatest(ops: seq<RegistryOp>, u: UserId)
    ensures Lookup(Replay(map[], ops), u) == LatestFor(ops, u)
  {
    if ops != [] {
      ReplayReflectsLatest(ops[..|ops| - 1], u);
    }
  }

  /** A disconnect removes the user's entry whatever socket it currently points
      to, including one written by a newer connection of the same user. */
  lemma StaleDisconnectRemovesNewerEntry(u: UserId, older: SocketId, newer: SocketId)
    requires u != ""
    ensures var ops := [Connected(Connection(older, Some(u))), Connected(Connection(newer, Some(u))),
                        Disconnected(Connection(older, Some(u)))];
            Lookup(Replay(map[], ops), u) == None
  {
    var ops := [Connected(Connection(older, Some(u))), Connected(Connection(newer, Some(u))),
                Disconnected(Connection(older, Some(u)))];
    ReplayReflectsLatest(ops, u);
  }

  // ---------------------------------------------------------------------------
  // Relaying

  /** The event delivered for a relayed signal: same kind, same payload, `from`
      stamped with the sender's identity, and no `to`. */
  function Forward(s: Signal, from: Option<string>): ServerEvent
  {
    match s
    case CallAccept(_) => AcceptFrom(from)
    case CallReject(_, reason) => RejectFrom(from, reason)
    case CallEnd(_) => EndFrom(from)
    case WebrtcOffer(_, offer) => OfferFrom(from, offer)
    case WebrtcAnswer(_, answer) => AnswerFrom(from, answer)
    case WebrtcIceCandidate(_, candidate) => IceCandidateFrom(from, candidate)
  }

  /** The signal a relayed event stands for, once it is addressed `to` someone again. */
  function Readdress(e: ServerEvent, to: UserId): Option<Signal>
  {
    match e
    case AcceptFrom(_) => Some(CallAccept(to))
    case RejectFrom(_, reason) => Some(CallReject(to, reason))
    case EndFrom(_) => Some(CallEnd(to))
    case OfferFrom(_, offer) => Some(WebrtcOffer(to, offer))
    case AnswerFrom(_, answer) => Some(WebrtcAnswer(to, answer))
    case IceCandidateFrom(_, candidate) => Some(WebrtcIceCandidate(to, candidate))
    case _ => None
  }

  /** Forwarding loses only the `to` field: every payload field passes through
      unchanged, and the sender is stamped as `from`. */
  lemma ForwardKeepsPayload(s: Signal, from: Option<string>)
    ensures Readdress(Forward(s, from), s.to) == Some(s)
    ensures Forward(s, from).from == from
  {
  }

  /** The caller data attached to a forwarded invitation: the client's own
      `fromUser` when given, else the user-store record, else nothing. */
  function InviteCaller(fromUser: Option<Caller>, lookup: CallerLookup): (r: Option<Caller>)
    ensures fromUser.Some? ==> r == fromUser
    ensures fromUser.None? && lookup.Found? ==> r == Some(lookup.caller)
    ensures fromUser.None? && !lookup.Found? ==> r.None?
  {
    if fromUser.Some? then fromUser
    else if lookup.Found? then Some(lookup.caller)
    else None
  }

  class SocketServer {
    /** userId -> socket id of that user's latest connection. */
    var userSocketMap: map<UserId, SocketId>
    /** The keys of `userSocketMap` in the order `Object.keys` lists them
        (insertion order; a re-registered key keeps its place). */
    var keyOrder: seq<UserId>
    /** Every event the server has pushed, in order. */
    var outbox: seq<Emission>

    ghost predicate Valid()
      reads this
    {
      Distinct(keyOrder) && forall u :: u in userSocketMap <==> u in keyOrder
    }

    constructor ()
      ensures Valid()
      ensures userSocketMap == map[] && keyOrder == [] && outbox == []
    {
      userSocketMap := map[];
      keyOrder := [];
      outbox := [];
    }

    /** `getReceiverSocketId`: the socket of the user's latest connection, if online. */
    function GetReceiverSocketId(userId: UserId): (r: Option<SocketId>)
      reads this
      ensures r.Some? <==> userId in userSocketMap
      ensures r.Some? ==> r.value == userSocketMap[userId]
    {
      Lookup(userSocketMap, userId)
    }

    /** `Object.keys(userSocketMap)`: every online user exactly once. */
    function OnlineUsers(): (r: seq<UserId>)
      reads this
      requires Valid()
      ensures Distinct(r)
      ensures forall u :: u in r <==> u in userSocketMap
    {
      keyOrder
    }

    /** A new connection: register it under its truthy `userId` (replacing any
        earlier entry), then broadcast the online users to everyone. */
    method Connect(c: Connection)
      requires Valid()
      modifies this
      ensures Valid()
      ensures userSocketMap == Apply(old(userSocketMap), Connected(c))
      ensures Truthy(c.userId) ==> GetReceiverSocketId(c.userId.value) == Some(c.socketId)
      ensures !Truthy(c.userId) ==> userSocketMap == old(userSocketMap) && keyOrder == old(keyOrder)
      ensures keyOrder == if Truthy(c.userId) && c.userId.value !in old(userSocketMap)
                          then old(keyOrder) + [c.userId.value] else old(keyOrder)
      ensures outbox == old(outbox) + [ToAll(GetOnlineUsers(OnlineUsers()))]
    {
      if Truthy(c.userId) {
        var u := c.userId.value;
        if u !in userSocketMap {
          keyOrder := keyOrder + [u];
        }
        userSocketMap := userSocketMap[u := c.socketId];
      }
      outbox := outbox + [ToAll(GetOnlineUsers(keyOrder))];
    }

    /** A closed connection: delete the entry of its `userId` whichever socket it
        points to, then broadcast the online users to everyone. */
    method Disconnect(c: Connection)
      requires Valid()
      modifies this
      ensures Valid()
      ensures userSocketMap == Apply(old(userSocketMap), Disconnected(c))
      ensures GetReceiverSocketId(KeyOf(c.userId)) == None
      ensures forall u :: u != KeyOf(c.userId) ==> GetReceiverSocketId(u) == old(GetReceiverSocketId(u))
      ensures keyOrder == Remove(old(keyOrder), KeyOf(c.userId))
      ensures outbox == old(outbox) + [ToAll(GetOnlineUsers(OnlineUsers()))]
    {
      var key := KeyOf(c.userId);
      userSocketMap := userSocketMap - {key};
      keyOrder := Remove(keyOrder, key);
      outbox := outbox + [ToAll(GetOnlineUsers(keyOrder))];
    }

    /** `call:invite`: dropped when `to` is offline; otherwise forwarded with
        `from` and the caller data of `InviteCaller` (a failed lookup still
        forwards, with `from` only). */
    method OnInvite(c: Connection, to: UserId, fromUser: Option<Caller>, lookup: CallerLookup)
      modifies this
      ensures userSocketMap == old(userSocketMap) && keyOrder == old(keyOrder)
      ensures to !in userSocketMap ==> outbox == old(outbox)
      ensures to in userSocketMap ==>
        outbox == old(outbox) + [ToSocket(userSocketMap[to], InviteFrom(c.userId, InviteCaller(fromUser, lookup)))]
    {
      var receiverSocketId := GetReceiverSocketId(to);
      if receiverSocketId.None? {
        return;
      }
      var caller := fromUser;
      if caller.None? {
        match lookup
        case Found(u) =>
          caller := Some(u);
        case NotFound =>
        case LookupFailed =>
          // the catch path looks the receiver up again and forwards `from` alone
          var again := GetReceiverSocketId(to);
          if again.Some? {
            outbox := outbox + [ToSocket(again.value, InviteFrom(c.userId, None))];
          }
          return;
      }
      outbox := outbox + [ToSocket(receiverSocketId.value, InviteFrom(c.userId, caller))];
    }

    /** `call:accept`, `call:reject`, `call:end` and the three `webrtc:*` events:
        exactly one event of the same kind to the addressee's socket when online,
        nothing otherwise. */
    method OnSignal(c: Connection, s: Signal)
      modifies this
      ensures userSocketMap == old(userSocketMap) && keyOrder == old(keyOrder)
      ensures s.to !in userSocketMap ==> outbox == old(outbox)
      ensures s.to in userSocketMap ==>
        outbox == old(outbox) + [ToSocket(userSocketMap[s.to], Forward(s, c.userId))]
    {
      var receiverSocketId := GetReceiverSocketId(s.to);
      if receiverSocketId.Some? {
        outbox := outbox + [ToSocket(receiverSocketId.value, Forward(s, c.userId))];
      }
    }

    /** `io.to(socketId).emit(event)` for another component that shares this server. */
    method EmitTo(socketId: SocketId, event: ServerEvent)
      modifies this
      ensures userSocketMap == old(userSocketMap) && keyOrder == old(keyOrder)
      ensures outbox == old(outbox) + [ToSocket(socketId, event)]
    {
      outbox := outbox + [ToSocket(socketId, event)];
    }
  }
}
