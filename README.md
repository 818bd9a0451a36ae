# chat_app signalling and messaging core, modelled in Dafny

This project models the part of the chat application in which the two
clients of a voice call and the central relay must stay in step, together
with the message bookkeeping behind the chat view:

- **Presence registry and signalling relay** (`presence.dfy`, module
  `Presence`; backend/src/lib/socket.js). The server keeps `userSocketMap`
  from user id to the socket of the user's latest connection. It writes an
  entry on connect and deletes one on disconnect, and after each change it
  broadcasts the key list (`getOnlineUsers`) to every client. It forwards
  `call:invite`, `call:accept`, `call:reject`, `call:end`, `webrtc:offer`,
  `webrtc:answer` and `webrtc:ice-candidate` to the addressee's socket with
  `from` stamped, or drops them when the addressee is offline. The class
  `SocketServer` holds the map, the key enumeration order and an outbox of
  everything pushed. `Replay`/`LatestFor` describe the registry as a function
  of the whole connect/disconnect history.
- **Message delivery and read receipts** (`message_controller.dfy`, module
  `MessageController`; backend/src/controllers/message.controller.js). The
  store is a sequence of message records (class `MessageDb`). The model
  covers the conversation filter of `getMessages`, the bulk `isRead`/`readAt`
  update of `markMessagesAsRead` and `getMessages`, the unread counts of
  `getUserForSidebar`, and the `newMessage` / `messagesRead` pushes through
  the socket server.
- **Client call state machine** (`call_store.dfy`, module `CallStore`;
  frontend/src/store/useCallStore.js). The store object is the class
  `CallSession`. Its state is one record, which the handlers replace the way
  zustand's `set` does. Peer connections and media streams are opaque
  handles from an allocator, and the ghost sets `acquired` and `released`
  record every handle created and every one closed. The invariant
  `Accounted()` says none of them leaks. It holds because the handlers call
  the corrected `PreparePeer`; the code as written leaks a connection when
  microphone access is refused (see "## Findings"). Every `socket.emit` is appended to an
  outbox. Each handler is one atomic step.
- **Client message list** (`chat_store.dfy`, module `ChatStore`;
  frontend/src/store/useChatStore.js). It covers the replace on fetch, the
  append on send, and the `newMessage` listener with its filter on the
  partner captured at subscription time.
- **One call end to end** (`call_flow.dfy`, module `CallFlow`). It runs two
  `CallSession`s and a `SocketServer` through a complete call: invite,
  accept, offer, answer, hang-up. It proves the exact sequence each side
  emits and that each side ends idle. It proves that the relay delivers
  those emits to the other side's socket, stamped with the sender. The
  handler arguments on each side are written to match the relayed events;
  that match is not itself proved.

Inputs the code gets from outside are parameters. The clock is a `now`
value. `mediaGranted` tells whether `getUserMedia` succeeds. `negotiationOk`
tells whether creating or applying a session description succeeds. `offer`
and `answer` are the descriptions the media layer produces. `saveOk` tells
whether the upload or save in `sendMessage` succeeds. `lookup` is the result
of the invite's user-store query. `fetched` and `response` are the HTTP
results on the client.

The model follows the code as written, including these behaviours a reader might not expect:

- A `call:invite` overwrites the session even during a call (`OnCallInvite`).
  `CallFlow.InviteDuringCall` shows the result: the session stops showing the
  call but keeps its peer connection and streams, and the real peer's
  `call:end` is then ignored.
- `webrtc:offer` does not check `from` against a pending invitation or the
  current peer (`OnWebrtcOffer`).
- The store has no cancel operation for an outgoing call. The modal calls
  `cancelOutgoingCall`, which the store does not define.
- A disconnect deletes the user's entry even when a newer connection of the
  same user has overwritten it (`StaleDisconnectRemovesNewerEntry`).
- The `getOnlineUsers` list is in key insertion order. A re-registered user
  keeps their place.

## Model

| member | source | states |
|---|---|---|
| Presence.KeyOf | backend/src/lib/socket.js:28-31 | the registry key a handshake `userId` names; a present id is its own key |
| Presence.Remove | backend/src/lib/socket.js:101-102 | deleting a key from the enumeration order keeps exactly the other keys, keeps them distinct, and changes nothing when the key is absent |
| Presence.RemoveSnoc | backend/src/lib/socket.js:101-102 | deleting a key keeps the surviving keys in their enumeration order: a key appended last stays last unless it is the one deleted |
| Presence.ReplayReflectsLatest | backend/src/lib/socket.js:28-31 | for every connect/disconnect history, a lookup gives the socket of the user's latest connection, or nothing when the user's latest event was a disconnect or there was none |
| Presence.StaleDisconnectRemovesNewerEntry | backend/src/lib/socket.js:99-101 | connecting twice and then closing the older socket leaves the user unregistered, although the newer connection is still open |
| Presence.ForwardKeepsPayload | backend/src/lib/socket.js:53-94 | a relayed event keeps the kind and every payload field (`reason`, `offer`, `answer`, `candidate`), drops `to`, and carries the sender as `from` |
| Presence.InviteCaller | backend/src/lib/socket.js:39-45 | an invitation carries the client's `fromUser` when given, else the looked-up caller, else no caller data |
| Presence.SocketServer.constructor | backend/src/lib/socket.js:19-21 | the registry starts empty |
| Presence.SocketServer.GetReceiverSocketId | backend/src/lib/socket.js:16-18 | a read-only lookup that finds a socket exactly when the user is registered, and finds that user's entry |
| Presence.SocketServer.OnlineUsers | backend/src/lib/socket.js:32 | the broadcast key list lists every registered user exactly once and nobody else |
| Presence.SocketServer.Connect | backend/src/lib/socket.js:28-32 | a truthy `userId` is registered to the new socket, replacing any earlier entry; no `userId` leaves the map; exactly one `getOnlineUsers` with the current key set goes to everyone |
| Presence.SocketServer.Disconnect | backend/src/lib/socket.js:99-103 | afterwards the user's lookup is empty whichever socket it pointed to; every other lookup is unchanged; exactly one `getOnlineUsers` with the current key set goes to everyone |
| Presence.SocketServer.OnInvite | backend/src/lib/socket.js:35-51 | dropped when the addressee is offline; otherwise exactly one `call:invite` to the addressee's socket with `from` and the caller data of `InviteCaller`, also when the lookup fails; the registry is unchanged |
| Presence.SocketServer.OnSignal | backend/src/lib/socket.js:53-94 | for the six other signalling events: exactly one event of the same kind to the addressee's socket when online, nothing otherwise; the registry is unchanged |
| Presence.SocketServer.EmitTo | backend/src/controllers/message.controller.js:95-100 | a push to one socket appends exactly that emission and leaves the registry alone |
| MessageController.Conversation | backend/src/controllers/message.controller.js:42-47 | the fetched messages are exactly the stored messages sent between the two users in either direction |
| MessageController.ConversationAppend | backend/src/controllers/message.controller.js:42-47 | the filter keeps store order: filtering a concatenation concatenates the filtered parts |
| MessageController.ConversationSymmetric | backend/src/controllers/message.controller.js:42-47 | either user of a pair fetches the same conversation |
| MessageController.MarkRead | backend/src/controllers/message.controller.js:116-126 | the bulk update neither adds nor removes records |
| MessageController.MarkReadAt | backend/src/controllers/message.controller.js:116-126 | record by record: an unread message from the sender to the reader gets `isRead` and `readAt = now`; every other record is unchanged |
| MessageController.MarkReadProperties | backend/src/controllers/message.controller.js:116-126 | afterwards every message from the sender to the reader is read; other pairs' messages and already-read messages (with their `readAt`) are unchanged; no id, party, content or creation time changes |
| MessageController.MarkReadIdempotent | backend/src/controllers/message.controller.js:119-125 | a second mark-as-read of the same pair, at any later time, changes no message |
| MessageController.UnreadCount | backend/src/controllers/message.controller.js:13-17 | the count of unread messages from one user to another is at most the number of stored messages |
| MessageController.UnreadCountZeroIff | backend/src/controllers/message.controller.js:13-17 | the count is zero exactly when no message from the sender to the reader is unread |
| MessageController.UnreadCountAppend | backend/src/controllers/message.controller.js:82-88 | storing a new unread message raises its own pair's count by one and no other pair's count |
| MessageController.MarkReadClearsUnread | backend/src/controllers/message.controller.js:116-126 | after marking a pair read, the reader's unread count for that sender is zero |
| MessageController.Sidebar | backend/src/controllers/message.controller.js:8-17 | the sidebar lists exactly the users other than me, each with the number of unread messages they sent me |
| MessageController.MessageDb.SendMessage | backend/src/controllers/message.controller.js:82-100 | a saved message is a new unread record with a fresh id, appended to the store; `newMessage` goes once to the receiver's socket and once to the sender's, each only when online; a failed save stores and pushes nothing |
| MessageController.MessageDb.MarkMessagesAsRead | backend/src/controllers/message.controller.js:116-137 | the store becomes the bulk update of the pair; `messagesRead{senderId}` goes to the reader and `messagesRead{senderId, receiverId}` to the sender, each only when online |
| MessageController.MessageDb.GetMessages | backend/src/controllers/message.controller.js:42-60 | the result is the conversation as stored before the call; afterwards only the messages the other user sent me are marked read |
| CallStore.Idle | frontend/src/store/useCallStore.js:217 | the reset state holds no media object |
| CallStore.CallSession.constructor | frontend/src/store/useCallStore.js:22-34 | the session starts idle, without a socket, having acquired nothing |
| CallStore.CallSession.AttachSocket | frontend/src/store/useCallStore.js:36-41 | no socket, or the socket already attached, changes nothing; another socket replaces the stored one and nothing else |
| CallStore.CallSession.EndCall | frontend/src/store/useCallStore.js:197-221 | with `ending` set nothing changes and nothing is emitted; otherwise every call field is reset, every held peer connection and stream is released, and exactly one `call:end{to: peerUserId}` is emitted when neither `remote` nor `dontSignal`, a socket is attached and `peerUserId` is truthy, none otherwise |
| CallStore.CallSession.PreparePeer | frontend/src/store/useCallStore.js:135-161 | a silent, unsignalled teardown first, then three new distinct handles for the peer connection and both streams, `peerUserId == u`, and `outgoingTo`, `isCalling`, `ringing` and `incomingFrom` reset; refused media leaves the session idle with nothing held and nothing leaked |
| CallStore.CallSession.PreparePeerAsWritten | frontend/src/store/useCallStore.js:139-140 | when `getUserMedia` is refused, the connection just created is acquired but neither held nor released, so the no-leak invariant is broken |
| CallStore.CallSession.OnCallInvite | frontend/src/store/useCallStore.js:52-58 | ringing for `from`, with `incomingFrom` and `peerUserId` set to it and `isCalling`/`inCall` cleared, whatever the session was doing; media and `outgoingTo` untouched |
| CallStore.CallSession.OnCallAccept | frontend/src/store/useCallStore.js:60-76 | ignored unless `outgoingTo` is truthy and equals `from`; then a fresh peer for `from` and exactly one `webrtc:offer` to `from` when negotiation succeeds; refused media ends idle with nothing held |
| CallStore.CallSession.OnCallReject | frontend/src/store/useCallStore.js:78-84 | ignored unless `outgoingTo` is truthy and equals `from`; then `isCalling`, `outgoingTo` and `peerUserId` are cleared, nothing is released and nothing is emitted |
| CallStore.CallSession.OnCallEnd | frontend/src/store/useCallStore.js:86-91 | ignored unless `from == peerUserId` and no teardown is in progress; then a full teardown that emits nothing |
| CallStore.CallSession.OnWebrtcOffer | frontend/src/store/useCallStore.js:93-111 | without a peer connection a fresh one is prepared first; on success exactly one `webrtc:answer` to `from` and the call is entered with `from` as peer, without any check of `from` |
| CallStore.CallSession.OnWebrtcAnswer | frontend/src/store/useCallStore.js:113-122 | no effect without a peer connection or when applying fails; otherwise `inCall` is set and `isCalling` cleared, nothing else |
| CallStore.CallSession.OnRemoteIceCandidate | frontend/src/store/useCallStore.js:124-132 | a candidate is applied exactly when a peer connection exists and the candidate is present; the state never changes |
| CallStore.CallSession.OnLocalIceCandidate | frontend/src/store/useCallStore.js:150-158 | a gathered candidate is sent to the peer exactly when there is a candidate, a socket and a truthy `peerUserId`; the state never changes |
| CallStore.CallSession.StartCall | frontend/src/store/useCallStore.js:163-179 | without a socket nothing happens; otherwise `isCalling`, `outgoingTo` and `peerUserId` name the callee and exactly one `call:invite{to}` is emitted; nothing is acquired |
| CallStore.CallSession.AcceptCall | frontend/src/store/useCallStore.js:181-187 | without a socket or a truthy `incomingFrom` nothing is emitted; otherwise exactly one `call:accept` to the caller; the state never changes and no media is acquired |
| CallStore.CallSession.RejectCall | frontend/src/store/useCallStore.js:189-195 | without a socket or a truthy `incomingFrom` nothing happens; otherwise exactly one `call:reject` with the given reason or "declined", and `ringing`, `incomingFrom` and `peerUserId` are cleared |
| ChatStore.Matching | frontend/src/store/useChatStore.js:67-73 | the number of listeners that keep a message is at most the number of listeners, and zero exactly when the message concerns none of their partners, so a delivered message is appended exactly when some listener's partner sent or received it |
| ChatStore.Dispatch | frontend/src/store/useChatStore.js:67-73 | a delivered message leaves the old list as a prefix and appends copies of the message only, one per listener whose captured partner sent or received it |
| ChatStore.SingleListener | frontend/src/store/useChatStore.js:58-72 | with one subscription, a message is appended exactly when it was sent by or to the partner selected at subscription time, and the list is unchanged otherwise |
| ChatStore.SenderEchoDuplicates | frontend/src/store/useChatStore.js:67-73 | with a subscription to the receiver, the server's echo of a message the list already holds from the send response is appended a second time |
| ChatStore.ChatStore.constructor | frontend/src/store/useChatStore.js:8-10 | the store starts with no messages, no partner and no listener |
| ChatStore.ChatStore.GetMessages | frontend/src/store/useChatStore.js:30-31 | a successful fetch replaces the list wholesale; a failed one leaves it |
| ChatStore.ChatStore.SendMessage | frontend/src/store/useChatStore.js:39-52 | a successful send sets the list to the pre-request list with the returned message at the end; on failure the list is unchanged |
| ChatStore.ChatStore.SubscribeToMessagesAsWritten | frontend/src/store/useChatStore.js:55-63 | the guard reads a field the auth store does not have, so no listener is ever registered |
| ChatStore.ChatStore.SubscribeToMessages | frontend/src/store/useChatStore.js:55-73 | a listener capturing the selected partner is registered exactly when there is a socket, a selected partner and a logged-in user |
| ChatStore.ChatStore.UnsubscribeFromMessages | frontend/src/store/useChatStore.js:76-81 | with a socket every `newMessage` listener is removed; without one nothing changes |
| ChatStore.ChatStore.OnNewMessage | frontend/src/store/useChatStore.js:67-73 | a pushed message runs every registered listener in turn and changes the list as `Dispatch` says |
| ChatStore.ChatStore.SetSelectedUser | frontend/src/store/useChatStore.js:83 | only `selectedUser` changes |
| CallFlow.AsSignal | backend/src/lib/socket.js:53-94 | every client emit other than an invitation is one relayed signal with the same addressee |
| CallFlow.CallerSide | frontend/src/store/useCallStore.js:60-122 | dialling, an accepted invitation, the offer, the answer and a local hang-up leave the caller idle, having emitted the invite, the offer and the end in that order |
| CallFlow.CalleeSide | frontend/src/store/useCallStore.js:52-111 | ringing, accepting, answering the offer and a remote hang-up leave the callee idle, having emitted the acceptance and the answer only |
| CallFlow.BothOnline | backend/src/lib/socket.js:28-31 | two connections with distinct user ids register both users |
| CallFlow.TwoPartyCall | backend/src/lib/socket.js:35-94 | the relay delivers each client's emits to the other client's socket, stamped with the sender, in the order the call interleaves them; the invitation carries the caller's looked-up record |
| CallFlow.InviteDuringCall | frontend/src/store/useCallStore.js:52-58 | a third user's invitation during a call clears `inCall` and takes over `peerUserId` while the call's peer connection and streams stay held |

## Left out

- Browser media: `RTCPeerConnection`, `getUserMedia`, `MediaStream`, SDP and ICE contents, `ontrack` and the hidden audio element (frontend/src/store/useCallStore.js:5-20, 141-148, 207-216). They are opaque handles with acquire and release steps.
- Toasts and console logging: they are output only. The `silent` option of `endCall` only suppresses a toast, so `EndCall` has no parameter for it.
- Interleaving of async handlers: each handler runs as one atomic step. So `ending` is never true between steps, and the re-entrancy guard is stated for a state where it is set. Lost updates are not modelled. One example is `sendMessage` on the client, which appends to the list it read before the request.
- AttachSocket does not model the removal and re-registration of handlers on the socket object, nor handlers left on a previously attached socket.
- The catch branch of `startCall` is not modelled: `socket.emit` does not throw.
- Cancelling an outgoing call: the store defines no such operation (frontend/src/components/IncomingCallModal.jsx:15 calls `cancelOutgoingCall`, which is undefined).
- The connection lookups call `getReceiverSocketId` with plain ids. JavaScript property-key quirks (integer-like keys enumerate first, inherited properties such as `constructor`) are not modelled.
- `User.findById` in the invite handler is a parameter (`CallerLookup`).
- The Cloudinary upload in `sendMessage` (backend/src/controllers/message.controller.js:78-81) is a foreign call. `imageUrl` is an optional input and its failure is part of `saveOk`.
- Storage failures of `getMessages` and `markMessagesAsRead` are not modelled. There the store changes or nothing does, and the request answers with an error.
- MongoDB query semantics, ObjectId and Date values: ids are strings, `readAt` is the `now` parameter, the store is an ordered sequence.
- `getUsers`, `users` and the loading flags of the chat store are HTTP plumbing without logic.
- The auth, user and middleware controllers, the auth store, notificationSound.js, the UI components, index.js, db.js and axios.js are not part of this model. They are authentication, HTTP, database, audio and rendering code.
- CallStore.CallSession.PreparePeer: states the corrected behaviour (the new connection is closed when media is refused). PreparePeerAsWritten models the code as written.
- CallStore.CallSession.OnCallAccept: runs the corrected `PreparePeer`, so its promises for refused media (state idle, `acquired == released`, `Valid()`) are those of the intended code. As written, the connection created at frontend/src/store/useCallStore.js:139 leaks on that path.
- CallStore.CallSession.OnWebrtcOffer: runs the corrected `PreparePeer` when there is no peer connection, so its promises for refused media (state idle, `acquired == released`, `Valid()`) are those of the intended code. As written, the connection created at frontend/src/store/useCallStore.js:139 leaks on that path.
- ChatStore.ChatStore.SubscribeToMessages: states the corrected guard (reading `authUser`). SubscribeToMessagesAsWritten models the guard as written. The corrected listener still keeps the server's echo of the user's own message (frontend/src/store/useChatStore.js:65 computes `myId` but never uses it). When the send response is handled before that push, the message is appended twice; `SenderEchoDuplicates` states this. When the push comes first, the stale-list write of frontend/src/store/useChatStore.js:47 overwrites the pushed copy and the message appears once. The model gives the duplicate in both orders, because it does not model that lost update.

## Findings

| source | as written | input that shows it | evidently intended | confidence | as-written member | corrected member |
|---|---|---|---|---|---|---|
| frontend/src/store/useCallStore.js:139-140 | `preparePeer` creates the `RTCPeerConnection` before `getUserMedia`; when `getUserMedia` rejects, the connection is neither stored in `pc` nor closed | a `call:accept` or `webrtc:offer` while microphone access is refused (`mediaGranted = false`) | close the connection, or create it only after media is granted, so every created connection is released | not executed | CallStore.CallSession.PreparePeerAsWritten | CallStore.CallSession.PreparePeer |
| frontend/src/store/useChatStore.js:61 | the guard tests `authState.user`, but the auth store's field is `authUser` (frontend/src/store/useAuthStore.js:8), so the guard always returns and no `newMessage` listener is ever registered | any call of `subscribeToMessages` with a socket, a selected user and a logged-in user | test `authState.authUser` and take `myId` from it; the listener must then also skip messages whose `senderId` is `myId`, or the sender's list shows a sent message twice whenever the send response is handled before the server's push (`ChatStore.SenderEchoDuplicates`); when the push comes first, the stale-list write at frontend/src/store/useChatStore.js:47 hides the duplicate, an order the model does not distinguish because it leaves that lost update out | not executed | ChatStore.ChatStore.SubscribeToMessagesAsWritten | ChatStore.ChatStore.SubscribeToMessages |
