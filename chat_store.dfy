/** The client's message list (frontend/src/store/useChatStore.js): the
    selected conversation partner, the list of messages shown, and the
    `newMessage` socket listeners that append to it. */
module ChatStore {
  import opened Common

  /** The parts of the auth store's state that `subscribeToMessages` reads:
      its fields are `authUser` and `socket` (there is no `user` field). */
  datatype AuthState = AuthState(authUser: Option<UserId>, socket: Option<SocketId>)

  /** A listener that captured selected user `sel` keeps `m` when `m` was sent by or to `sel`. */
  predicate Concerns(m: Message, sel: UserId)
  {
    m.senderId == sel || m.receiverId == sel
  }

  /** How many of the registered listeners keep `m`. */
  function Matching(listeners: seq<UserId>, m: Message): (n: nat)
    ensures n <= |listeners|
    ensures n == 0 <==> forall i :: 0 <= i < |listeners| ==> !Concerns(m, listeners[i])
  {
    if listeners == [] then 0
    else (if Concerns(m, listeners[0]) then 1 else 0) + Matching(listeners[1..], m)
  }

  /** The message list after the socket calls every `newMessage` listener in
      registration order, each appending `m` to the list it reads when its
      captured partner sent or received `m`. */
  function Dispatch(msgs: seq<Message>, listeners: seq<UserId>, m: Message): (r: seq<Message>)
    ensures |r| == |msgs| + Matching(listeners, m)
    ensures r[..|msgs|] == msgs
    ensures forall i :: |msgs| <= i < |r| ==> r[i] == m
    decreases listeners
  {
    if listeners == [] then msgs
    else Dispatch(if Concerns(m, listeners[0]) then msgs + [m] else msgs, listeners[1..], m)
  }

  /** With one listener, a delivered message is appended exactly when it
      concerns the partner captured at subscription time. */
  lemma SingleListener(msgs: seq<Message>, sel: UserId, m: Message)
    ensures Dispatch(msgs, [sel], m) == if Concerns(m, sel) then msgs + [m] else msgs
  {
    assert [sel][1..] == [];
  }

  /** The server also pushes a stored message to its sender's socket, and a
      listener whose partner is the receiver keeps it: the sender's list, which
      already got the message from the `sendMessage` response, gets it twice. */
  lemma SenderEchoDuplicates(msgs: seq<Message>, m: Message)
    ensures Dispatch(msgs + [m], [m.receiverId], m) == msgs + [m, m]
  {
    SingleListener(msgs + [m], m.receiverId, m);
  }

  class ChatStore {
    var messages: seq<Message>
    /** `selectedUser._id`, when a conversation partner is selected. */
    var selectedUser: Option<UserId>
    /** The partner id each registered `newMessage` listener captured, in registration order. */
    var listeners: seq<UserId>

    constructor ()
      ensures messages == [] && selectedUser == None && listeners == []
    {
      messages, selectedUser, listeners := [], None, [];
    }

    /** `getMessages`: a successful fetch replaces the list wholesale; a failed one leaves it. */
    method GetMessages(fetched: Option<seq<Message>>)
      modifies this
      ensures messages == if fetched.Some? then fetched.value else old(messages)
      ensures selectedUser == old(selectedUser) && listeners == old(listeners)
    {
      if fetched.Some? {
        messages := fetched.value;
      }
    }

    /** `sendMessage`: the stored message the server returns is appended to the
        list as it was before the request. Without a selected partner the
        request is never made; a failed request changes nothing. */
    method SendMessage(response: Option<Message>)
      modifies this
      ensures selectedUser.Some? && response.Some? ==> messages == old(messages) + [response.value]
      ensures selectedUser.None? || response.None? ==> messages == old(messages)
      ensures selectedUser == old(selectedUser) && listeners == old(listeners)
    {
      var before := messages;
      if selectedUser.None? || response.None? {
        return;
      }
      messages := before + [response.value];
    }

    /** `subscribeToMessages` as written: its guard reads `authState.user`, a
        field the auth store does not have, so it always returns before any
        listener is registered. */
    method SubscribeToMessagesAsWritten(auth: AuthState) returns (registered: bool)
      ensures !registered
    {
      var authStateUser: Option<UserId> := None;   // `authState.user` is undefined
      registered := !(auth.socket.None? || selectedUser.None? || authStateUser.None?);
    }

    /** `subscribeToMessages` reading the auth store's `authUser`: with a
        socket, a selected partner and a logged-in user, one more listener is
        registered that captures the current partner. */
    method SubscribeToMessages(auth: AuthState) returns (registered: bool)
      modifies this
      ensures registered <==> auth.socket.Some? && selectedUser.Some? && auth.authUser.Some?
      ensures listeners == if registered then old(listeners) + [selectedUser.value] else old(listeners)
      ensures messages == old(messages) && selectedUser == old(selectedUser)
    {
      if auth.socket.None? || selectedUser.None? || auth.authUser.None? {
        return false;
      }
      listeners := listeners + [selectedUser.value];
      registered := true;
    }

    /** `unsubscribeFromMessages`: removes every `newMessage` listener of the socket. */
    method UnsubscribeFromMessages(auth: AuthState)
      modifies this
      ensures listeners == if auth.socket.Some? then [] else old(listeners)
      ensures messages == old(messages) && selectedUser == old(selectedUser)
    {
      if auth.socket.Some? {
        listeners := [];
      }
    }

    /** A `newMessage` push: every registered listener runs in turn. */
    method OnNewMessage(m: Message)
      modifies this
      ensures messages == Dispatch(old(messages), listeners, m)
      ensures selectedUser == old(selectedUser) && listeners == old(listeners)
    {
      messages := Dispatch(messages, listeners, m);
    }

    /** `setSelectedUser`: changes the selected partner and nothing else. */
    method SetSelectedUser(u: Option<UserId>)
      modifies this
      ensures selectedUser == u
      ensures messages == old(messages) && listeners == old(listeners)
    {
      selectedUser := u;
    }
  }
}
