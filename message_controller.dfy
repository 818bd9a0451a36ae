/** Message delivery and read receipts (backend/src/controllers/message.controller.js):
    the conversation filter, the bulk mark-as-read update, per-sender unread
    counts, and the `newMessage` / `messagesRead` pushes through the socket server. */
module MessageController {
  import opened Common
  import opened Presence

  /** The `$or` filter of `getMessages`: sent by one of the two users to the other. */
  predicate InConversation(m: Message, a: UserId, b: UserId)
  {
    (m.senderId == a && m.receiverId == b) || (m.senderId == b && m.receiverId == a)
  }

  /** The filter of `updateMany` and `countDocuments`: unread, from `sender` to `receiver`. */
  predicate UnreadFrom(m: Message, sender: UserId, receiver: UserId)
  {
    m.senderId == sender && m.receiverId == receiver && !m.isRead
  }

  /** The messages between `a` and `b` in either direction, in store order. */
  function Conversation(msgs: seq<Message>, a: UserId, b: UserId): (r: seq<Message>)
    ensures forall m :: m in r <==> m in msgs && InConversation(m, a, b)
    ensures |r| <= |msgs|
  {
    if msgs == [] then []
    else if InConversation(msgs[0], a, b) then [msgs[0]] + Conversation(msgs[1..], a, b)
    else Conversation(msgs[1..], a, b)
  }

  /** The filter keeps store order: filtering a concatenation concatenates the results. */
  lemma {:induction false} ConversationAppend(xs: seq<Message>, ys: seq<Message>, a: UserId, b: UserId)
    ensures Conversation(xs + ys, a, b) == Conversation(xs, a, b) + Conversation(ys, a, b)
  {
    if xs == [] {
      assert xs + ys == ys;
    } else {
      assert (xs + ys)[1..] == xs[1..] + ys;
      ConversationAppend(xs[1..], ys, a, b);
    }
  }

  /** The conversation is the same whichever of the two users asks. */
  lemma {:induction false} ConversationSymmetric(msgs: seq<Message>, a: UserId, b: UserId)
    ensures Conversation(msgs, a, b) == Conversation(msgs, b, a)
  {
    if msgs != [] {
      ConversationSymmetric(msgs[1..], a, b);
    }
  }

  /** The patch `{isRead: true, readAt: now}` applied by `updateMany` to one record. */
  function MarkOne(m: Message, sender: UserId, receiver: UserId, now: Timestamp): Message
  {
    if UnreadFrom(m, sender, receiver) then m.(isRead := true, readAt := Some(now)) else m
  }

  /** The bulk update of `markMessagesAsRead` and `getMessages` over the whole store. */
  function MarkRead(msgs: seq<Message>, sender: UserId, receiver: UserId, now: Timestamp): (r: seq<Message>)
    ensures |r| == |msgs|
  {
    if msgs == [] then []
    else [MarkOne(msgs[0], sender, receiver, now)] + MarkRead(msgs[1..], sender, receiver, now)
  }

  /** Exactly the unread messages from `sender` to `receiver` are patched; every
      other record is left as it was. */
  lemma {:induction false} MarkReadAt(msgs: seq<Message>, sender: UserId, receiver: UserId, now: Timestamp, i: nat)
    requires i < |msgs|
    ensures MarkRead(msgs, sender, receiver, now)[i] ==
            if UnreadFrom(msgs[i], sender, receiver) then msgs[i].(isRead := true, readAt := Some(now)) else msgs[i]
  {
    if i > 0 {
      MarkReadAt(msgs[1..], sender, receiver, now, i - 1);
    }
  }

  /** After the update every message from `sender` to `receiver` is read; the
      messages of every other pair, and those already read, are unchanged
      (already-read messages keep their `readAt`); no record changes its
      id, sender, receiver, content or creation time. */
  lemma MarkReadProperties(msgs: seq<Message>, sender: UserId, receiver: UserId, now: Timestamp)
    ensures var r := MarkRead(msgs, sender, receiver, now);
      && (forall i :: 0 <= i < |r| && msgs[i].senderId == sender && msgs[i].receiverId == receiver ==> r[i].isRead)
      && (forall i :: 0 <= i < |r| && !(msgs[i].senderId == sender && msgs[i].receiverId == receiver) ==> r[i] == msgs[i])
      && (forall i :: 0 <= i < |r| && msgs[i].isRead ==> r[i] == msgs[i])
      && (forall i :: 0 <= i < |r| && !msgs[i].isRead && msgs[i].senderId == sender && msgs[i].receiverId == receiver
            ==> r[i].readAt == Some(now))
      && (forall i :: 0 <= i < |r| ==> r[i].(isRead := msgs[i].isRead, readAt := msgs[i].readAt) == msgs[i])
  {
    forall i | 0 <= i < |msgs| {
      MarkReadAt(msgs, sender, receiver, now, i);
    }
  }

  /** A second mark-as-read of the same conversation changes no message. */
  lemma {:induction false} MarkReadIdempotent(msgs: seq<Message>, sender: UserId, receiver: UserId, t1: Timestamp, t2: Timestamp)
    ensures MarkRead(MarkRead(msgs, sender, receiver, t1), sender, receiver, t2) == MarkRead(msgs, sender, receiver, t1)
  {
    if msgs != [] {
      MarkReadIdempotent(msgs[1..], sender, receiver, t1, t2);
      var once := MarkRead(msgs, sender, receiver, t1);
      assert once[1..] == MarkRead(msgs[1..], sender, receiver, t1);
    }
  }

  /** `countDocuments({senderId, receiverId, isRead: false})`. */
  function UnreadCount(msgs: seq<Message>, sender: UserId, receiver: UserId): (n: nat)
    ensures n <= |msgs|
  {
    if msgs == [] then 0
    else (if UnreadFrom(msgs[0], sender, receiver) then 1 else 0) + UnreadCount(msgs[1..], sender, receiver)
  }

  /** The count is zero exactly when no message from `sender` to `receiver` is unread. */
  lemma {:induction false} UnreadCountZeroIff(msgs: seq<Message>, sender: UserId, receiver: UserId)
    ensures UnreadCount(msgs, sender, receiver) == 0 <==>
            forall i :: 0 <= i < |msgs| ==> !UnreadFrom(msgs[i], sender, receiver)
  {
    if msgs != [] {
      UnreadCountZeroIff(msgs[1..], sender, receiver);
      assert forall i :: 0 < i < |msgs| ==> msgs[i] == msgs[1..][i - 1];
    }
  }

  /** Storing a message raises the count of its own pair by one (it is stored
      unread) and changes no other count. */
  lemma {:induction false} UnreadCountAppend(msgs: seq<Message>, m: Message, sender: UserId, receiver: UserId)
    ensures UnreadCount(msgs + [m], sender, receiver) ==
            UnreadCount(msgs, sender, receiver) + (if UnreadFrom(m, sender, receiver) then 1 else 0)
  {
    if msgs == [] {
      assert msgs + [m] == [m];
    } else {
      assert (msgs + [m])[1..] == msgs[1..] + [m];
      UnreadCountAppend(msgs[1..], m, sender, receiver);
    }
  }

  /** Reading the conversation resets the reader's unread count for that sender to zero. */
  lemma MarkReadClearsUnread(msgs: seq<Message>, sender: UserId, receiver: UserId, now: Timestamp)
    ensures UnreadCount(MarkRead(msgs, sender, receiver, now), sender, receiver) == 0
  {
    var r := MarkRead(msgs, sender, receiver, now);
    MarkReadProperties(msgs, sender, receiver, now);
    UnreadCountZeroIff(r, sender, receiver);
  }

  /** One sidebar entry: a user other than me and the number of their messages I have not read. */
  datatype SidebarUser = SidebarUser(userId: UserId, unreadCount: nat)

  /** `getUserForSidebar`: every user except me, in user-store order, with the
      unread count of the messages they sent me. */
  function Sidebar(users: seq<UserId>, me: UserId, msgs: seq<Message>): (r: seq<SidebarUser>)
    ensures |r| <= |users|
    ensures forall i :: 0 <= i < |r| ==> r[i].userId != me && r[i].unreadCount == UnreadCount(msgs, r[i].userId, me)
    ensures forall u :: u in users && u != me <==> exists i :: 0 <= i < |r| && r[i].userId == u
  {
    if users == [] then []
    else
      var rest := Sidebar(users[1..], me, msgs);
      assert users == [users[0]] + users[1..];
      if users[0] == me then rest
      else
        var r := [SidebarUser(users[0], UnreadCount(msgs, users[0], me))] + rest;
        assert forall i :: 0 < i < |r| ==> r[i] == rest[i - 1];
        assert forall j :: 0 <= j < |rest| ==> r[j + 1] == rest[j];
        assert r[0].userId == users[0];
        r
  }

  /** The document store of messages. */
  class MessageDb {
    var messages: seq<Message>
    /** The id the store gives the next saved message. */
    var nextId: nat

    ghost predicate Valid()
      reads this
    {
      forall i :: 0 <= i < |messages| ==> messages[i].id < nextId
    }

    constructor ()
      ensures Valid() && messages == []
    {
      messages := [];
      nextId := 0;
    }

    /** `sendMessage`: store a new unread record (the image as its already
        uploaded URL), then push `newMessage` to the receiver's socket and to the
        sender's own socket, each only when that party is online. `saveOk` is
        false when the upload or the save fails: then nothing is stored or pushed
        and the request answers with an error. */
    method SendMessage(server: SocketServer, senderId: UserId, receiverId: UserId,
                       text: Option<string>, imageUrl: Option<string>, now: Timestamp, saveOk: bool)
      returns (r: Option<Message>)
      requires Valid()
      modifies this, server
      ensures Valid()
      ensures server.userSocketMap == old(server.userSocketMap) && server.keyOrder == old(server.keyOrder)
      ensures !saveOk ==> r.None? && messages == old(messages) && server.outbox == old(server.outbox)
      ensures saveOk ==> r.Some?
      ensures saveOk ==>
        var m := r.value;
        && m == Message(old(nextId), senderId, receiverId, text, imageUrl, false, None, now)
        && (forall i :: 0 <= i < |old(messages)| ==> old(messages)[i].id != m.id)
        && messages == old(messages) + [m]
        && server.outbox == old(server.outbox)
             + (if receiverId in server.userSocketMap then [ToSocket(server.userSocketMap[receiverId], NewMessage(m))] else [])
             + (if senderId in server.userSocketMap then [ToSocket(server.userSocketMap[senderId], NewMessage(m))] else [])
    {
      if !saveOk {
        return None;
      }
      var m := Message(nextId, senderId, receiverId, text, imageUrl, false, None, now);
      messages := messages + [m];
      nextId := nextId + 1;
      var receiverSocketId := server.GetReceiverSocketId(receiverId);
      var senderSocketId := server.GetReceiverSocketId(senderId);
      if receiverSocketId.Some? {
        server.EmitTo(receiverSocketId.value, NewMessage(m));
      }
      if senderSocketId.Some? {
        server.EmitTo(senderSocketId.value, NewMessage(m));
      }
      r := Some(m);
    }

    /** `markMessagesAsRead`: the reader `me` marks everything `senderId` sent
        them as read, then `messagesRead{senderId}` goes to the reader and
        `messagesRead{senderId, receiverId}` to the sender, each only when online. */
    method MarkMessagesAsRead(server: SocketServer, senderId: UserId, me: UserId, now: Timestamp)
      requires Valid()
      modifies this, server
      ensures Valid() && nextId == old(nextId)
      ensures messages == MarkRead(old(messages), senderId, me, now)
      ensures server.userSocketMap == old(server.userSocketMap) && server.keyOrder == old(server.keyOrder)
      ensures server.outbox == old(server.outbox)
        + (if me in server.userSocketMap then [ToSocket(server.userSocketMap[me], MessagesRead(senderId, None))] else [])
        + (if senderId in server.userSocketMap then [ToSocket(server.userSocketMap[senderId], MessagesRead(senderId, Some(me)))] else [])
    {
      MarkReadProperties(messages, senderId, me, now);
      messages := MarkRead(messages, senderId, me, now);
      var receiverSocketId := server.GetReceiverSocketId(me);
      var senderSocketId := server.GetReceiverSocketId(senderId);
      if receiverSocketId.Some? {
        server.EmitTo(receiverSocketId.value, MessagesRead(senderId, None));
      }
      if senderSocketId.Some? {
        server.EmitTo(senderSocketId.value, MessagesRead(senderId, Some(me)));
      }
    }

    /** `getMessages`: the conversation between me and `other` as it was before
        the call, after which the messages `other` sent me are marked read. */
    method GetMessages(other: UserId, me: UserId, now: Timestamp) returns (r: seq<Message>)
      requires Valid()
      modifies this
      ensures Valid() && nextId == old(nextId)
      ensures r == Conversation(old(messages), me, other)
      ensures messages == MarkRead(old(messages), other, me, now)
    {
      r := Conversation(messages, me, other);
      MarkReadProperties(messages, other, me, now);
      messages := MarkRead(messages, other, me, now);
    }
  }
}
