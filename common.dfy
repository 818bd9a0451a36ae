/** Shared vocabulary of the chat application: optional values, identities and
    the stored message record. */
module Common {

  datatype Option<+T> = None | Some(value: T)

  /** Opaque stable user identity (a document id rendered as a string). */
  type UserId = string

  /** Identity of one live socket connection; the socket layer never hands out an empty one. */
  type SocketId = s: string | s != "" witness "socket"

  /** Session descriptions and ICE candidates: produced and consumed by the
      browser's media layer, opaque to the relay. */
  type Payload = string

  /** Wall-clock instants are opaque `now` values supplied by the caller. */
  type Timestamp = int

  /** JavaScript truthiness of an optional string: absent and "" are both falsy. */
  predicate Truthy(s: Option<string>)
  {
    s.Some? && s.value != ""
  }

  /** A stored chat message. Only `isRead` and `readAt` ever change after creation. */
  datatype Message = Message(
    id: nat,
    senderId: UserId,
    receiverId: UserId,
    text: Option<string>,
    image: Option<string>,
    isRead: bool,
    readAt: Option<Timestamp>,
    createdAt: Timestamp)
}
