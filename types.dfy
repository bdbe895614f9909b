/** Shared vocabulary of the chat server: connection ids, room ids, interests. */
module Types {

  datatype Option<T> = None | Some(value: T)

  /** The opaque per-connection id the transport hands to every handler. */
  type Sid = string

  /** A room token (a fresh uuid string in the server). */
  type RoomId = string

  /** One declared interest, as the client sends it. */
  type Interest = string
}
