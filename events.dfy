/**
  The values exchanged between the chat server and its clients: the row shape of the
  `messages` table, the events the server pushes to sockets, and the HTTP reply of the
  image upload route.
 */
module Events {

  /** A nullable column or an optional request field. */
  datatype Option<+T> = None | Some(value: T)

  /** Opaque per-connection identifier, assigned by the transport when a socket connects. */
  type SessionId = nat

  /** One row of the `messages` table: an auto-increment `id`, nullable `content` and `image`, and `username`. */
  datatype Row = Row(id: nat, content: Option<string>, image: Option<string>, username: string)

  /** A row as `SELECT content, image, username` returns it: the key column is not selected. */
  datatype Listed = Listed(content: Option<string>, image: Option<string>, username: string)

  /** Events the server pushes to a socket, one constructor per event name. */
  datatype Event =
    | UpdateActiveUsers(count: int)                           // 'update active users'
    | LoadMessages(messages: seq<Listed>, activeUsers: int)   // 'load messages'
    | ChatMessage(msg: string, username: string)              // 'chat message'
    | ChatImage(imagePath: string, username: string)          // 'chat image'
    | Typing(username: string)                                // 'typing'

  /** Status code and body text of an HTTP reply. */
  datatype Response = Response(status: int, body: string)

  /** Sender name of the messages the server itself writes. */
  const SystemName: string := "System"
}
