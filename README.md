# EngineersCafe chat relay — a verified model of the event coordinator

The chat server (`server.js`) relays messages between browser clients over socket.io and keeps
them in a SQLite table. Its core is a small coordinator with three pieces of state:

- the process-wide counter `activeUsers`;
- the append-only `messages` table (`id` AUTOINCREMENT, `content`, `image`, `username`);
- the connected sockets, each with the events the server has pushed to it.

Five socket handlers and the HTTP `POST /upload` route change that state. Each one runs in a
fixed order: count and announce on connect, persist first and broadcast only on success,
`typing` to everyone but the sender.

This project models that coordinator in Dafny and proves its routing and bookkeeping rules.

- `events.dfy` (module `Events`): the wire values. These are the table row, the row as the
  snapshot carries it, the five server-to-client events and the HTTP reply.
- `store.dfy` (module `Store`): the table. Its invariant is that ids are positive, strictly
  increasing and below the next id. It also defines the insert and the full-table read.
- `relay.dfy` (module `Relay`): the coordinator as values. A `State` holds the counter, the
  table, the connected sessions and one outbox (the sequence of events pushed so far) per
  session. There is one function per handler, whose contract says who receives what and what
  else changes. Per-handler lemmas show that the invariant `count == |sessions|` is kept.
- `server.dfy` (module `Server`): class `Coordinator`. Its fields are `activeUsers`, `rows`,
  `nextId`, `sessions` and `outbox`, with one method per handler. Each method updates the fields
  in the handler's own statement order. Each is proved to reach the state the `Relay` function
  gives.
- `traces.dfy` (module `Traces`): runs of any sequence of handler invocations the transport can
  deliver. Over every such run:
  - `activeUsers` is the number of connects minus the number of disconnects, and never negative;
  - exactly the successful text sends and successful file uploads add a row;
  - nothing is ever taken back;
  - a disconnected socket is sent nothing more;
  - every image, and every user message that is not announcement-shaped (signed "System" and
    ending in the `user joined` suffix), was stored before any socket received it. A user's own
    announcement-shaped text is stored too, which `Traces.ChatMessageStored` shows per send.

  A worked three-socket conversation is proved event by event.

Node runs one handler at a time, so each handler is one atomic step. Every database call that
can fail (the INSERT of a text or image, the SELECT of the snapshot) is a boolean input. An
uploaded file is `Some(filename)` or `None`. The form's `username` field is `Option<string>`.

The server does less than a reader might assume:

- The server does not trim text and does not reject empty text. `OnChatMessage` stores and
  relays `""` like any other text. The only guard is in the browser client, which is not part
  of this model.
- `user joined` records no username on the session and stores no row. It only broadcasts a
  `chat message` from `"System"`. The text is the name followed by the Arabic " انضم إلى
  المحادثة" ("joined the conversation").
- On connect, the count update goes to every socket first. The `load messages` snapshot follows
  it, and only the new socket gets the snapshot.
- Disconnect is not guarded against a repeated signal. The model lets it run only for a
  connected socket, which is what socket.io delivers.
- The table is not emptied on start. `./chat.db` is reopened and `CREATE TABLE IF NOT EXISTS`
  keeps its rows and its AUTOINCREMENT counter, so the model starts from any well-formed table
  (`Relay.Start(t)`), not only from an empty one.

## Model

| member | source | states |
|---|---|---|
| `Store.Insert` | server.js:28-33 | an INSERT keeps every earlier row unchanged, adds exactly one row with the given columns, gives it an id larger than every earlier id, and keeps the id invariant |
| `Store.Listing` | server.js:72 | the snapshot read returns every row in table order, with the same content, image and username, and without the id |
| `Store.ListingExtends` | server.js:72 | after later inserts, the read lists the earlier snapshot first, unchanged |
| `Relay.Broadcast` | server.js:68 | an emit to a set of sockets appends the event to each target's outbox and to no other |
| `Relay.Start` | server.js:14-33 | after a (re)start the counter is 0, there are no sockets and nothing has been pushed, and the table is the one chat.db already holds; the invariants hold |
| `Relay.OnConnect` | server.js:66-78 | connect adds the session and raises the count by one; every previously connected socket gets `update active users(count)`; other outboxes are untouched; the new socket gets that update, then (only if the read succeeded) `load messages` with the table's rows in order and the new count |
| `Relay.ConnectInHandlerOrder` | server.js:66-78 | running the handler's statements in source order pushes the same events as `OnConnect` |
| `Relay.ConnectKeepsValid` | server.js:66-68 | after connect the count still equals the number of connected sockets, and nothing pushed or stored is taken back |
| `Relay.OnDisconnect` | server.js:101-105 | disconnect removes the session and lowers the count by one; every remaining socket gets `update active users(count)`; the leaving socket's outbox and the table are unchanged |
| `Relay.DisconnectKeepsValid` | server.js:101-103 | after disconnect the count equals the number of connected sockets, so it is not negative |
| `Relay.OnChatMessage` | server.js:81-89 | a failed insert changes nothing; a successful one appends exactly one row `(msg, NULL, username)` and sends `chat message {msg, username}` to every connected socket, the sender included; no trimming or emptiness check |
| `Relay.ChatMessageKeepsValid` | server.js:81-88 | a text send keeps the invariants and takes nothing back |
| `Relay.OnTyping` | server.js:92-94 | `typing(u)` reaches every connected socket except the sender; the sender's outbox, the table, the count and the sessions are unchanged |
| `Relay.TypingKeepsValid` | server.js:92-94 | a typing event keeps the invariants |
| `Relay.JoinedText` | server.js:98 | the announcement is the joining name followed by exactly the Arabic " joined the conversation" suffix |
| `Relay.OnUserJoined` | server.js:97-99 | `user joined(u)` sends `chat message {JoinedText(u), "System"}` to every connected socket; no row is stored and the count and sessions are unchanged |
| `Relay.UserJoinedKeepsValid` | server.js:97-99 | a join announcement keeps the invariants |
| `Relay.Uploader` | server.js:47 | the uploader's name is the form field when it is present and non-empty, otherwise "Unknown"; never empty |
| `Relay.ImagePath` | server.js:46 | the image path starts with "/uploads/" and the rest of it is exactly the stored file name |
| `Relay.OnUpload` | server.js:42-58 | no file: 400 and nothing changes; a failed insert: 500 and nothing changes; otherwise one row `(NULL, "/uploads/"+filename, Uploader(username))` is appended, `chat image` reaches every connected socket, and the reply is 200 |
| `Relay.UploadKeepsValid` | server.js:42-58 | an upload keeps the invariants and takes nothing back |
| `Traces.Apply` | server.js:66-106 | every handler the transport can run keeps the invariants and only appends |
| `Traces.Run` | server.js:66-106 | any admissible run of handlers ends in a state satisfying the invariants |
| `Traces.ApplyRows` | server.js:50 | a single handler adds one row exactly when it is a successful text send or a successful upload of a file, and otherwise none |
| `Traces.RunRows` | server.js:81-89 | over a run, the table grows by exactly the number of successful text sends and successful file uploads |
| `Traces.RunCount` | server.js:67-102 | over a run, `activeUsers` changes by the number of connects minus the number of disconnects; no other handler touches it |
| `Traces.PresenceCount` | server.js:14 | from a start on any well-formed table, `activeUsers == #connects - #disconnects`, which equals the number of connected sockets, so there are never more disconnects than connects |
| `Traces.RunGrows` | server.js:28-33 | over a run the table is append-only and no outbox loses an event |
| `Traces.ClosedStaysSilent` | server.js:101-105 | once a socket has disconnected, no later handler sends it anything |
| `Traces.ChatMessageStored` | server.js:82-87 | every event a text send pushes is backed by the table it leaves, and a successful send has a row `(msg, NULL, username)` whatever the text and the name, announcement-shaped or not |
| `Traces.UploadStored` | server.js:50-55 | the `chat image` an upload broadcasts has its row in the table |
| `Traces.ConnectStored` | server.js:66-78 | every event connect pushes needs no row (by `OnConnect`, they are count updates and snapshots) |
| `Traces.DisconnectStored` | server.js:101-103 | every event disconnect pushes needs no row (by `OnDisconnect`, they are count updates) |
| `Traces.TypingStored` | server.js:92-94 | every event typing pushes needs no row (by `OnTyping`, they are `typing` events) |
| `Traces.UserJoinedStored` | server.js:97-99 | every message a join pushes has the announcement shape (signed "System", ending in the join suffix), so it needs no row |
| `Traces.ApplyBacked` | server.js:81-89 | persist first, broadcast after: if every `chat image` and every `chat message` that is not announcement-shaped (signed "System", ending in the join suffix) pushed so far has its row, this still holds after any handler |
| `Traces.RunBacked` | server.js:50-55 | the same holds over any run: every `chat image` and every `chat message` that is not announcement-shaped in any outbox has its row |
| `Traces.BroadcastsArePersisted` | server.js:82-87 | from a start on any well-formed table, every `chat image` and every `chat message` that any socket received has a matching row, except the `user joined` announcements (signed "System", ending in the join suffix) |
| `Traces.ThreeSessions` | server.js:66-105 | three sockets connect and get counts 1, 2, 3 in their snapshots; the first sends "hi" as "alice", which is stored once and echoed to all three; the second leaves and the other two are told 2; every outbox is given in full |
| `Server.Coordinator.constructor` | server.js:14-33 | a started server has `activeUsers = 0` and no sockets, and its table is the one chat.db already holds, with its next id |
| `Server.Coordinator.Append` | server.js:82 | the fields after an INSERT are the table `Store.Insert` gives |
| `Server.Coordinator.Connect` | server.js:66-78 | the fields after the connection handler are exactly `Relay.OnConnect` of the fields before, and the invariant holds |
| `Server.Coordinator.Disconnect` | server.js:101-105 | the fields after the disconnect handler are exactly `Relay.OnDisconnect` of the fields before |
| `Server.Coordinator.ChatMessage` | server.js:81-89 | the fields after the chat message handler are exactly `Relay.OnChatMessage` of the fields before |
| `Server.Coordinator.Typing` | server.js:92-94 | the fields after the typing handler are exactly `Relay.OnTyping` of the fields before |
| `Server.Coordinator.UserJoined` | server.js:97-99 | the fields after the user joined handler are exactly `Relay.OnUserJoined` of the fields before |
| `Server.Coordinator.Upload` | server.js:42-58 | the fields after the upload route, and its reply, are exactly `Relay.OnUpload` of the fields before |

## Left out

- Relay.OnConnect: the snapshot's `activeUsers` is the count just after this connect. In the server it is read when the table-read callback runs, which may be after other handlers have run in between.
- Interleaving of database callbacks with other handlers: every handler runs to completion as one step. In the server, another handler may run between an INSERT and its callback, and between a connect's count update and its snapshot.
- Payload types: `msg` and `username` are strings. The server accepts any JSON value there. A missing `msg` would be stored as a row with neither content nor image. The "exactly one of content or image" invariant relies on string payloads.
- Relay.OnChatMessage: a `chat message` with no payload, or with `null`, throws in the parameter destructuring at server.js:81, before the INSERT. It stores no row and broadcasts nothing. Nothing in server.js catches the error. The model has no such input: `SendText` always carries two strings.
- A repeated disconnect signal for the same socket: socket.io delivers one per connection, so `Disconnect` requires a connected socket. The unguarded `activeUsers--` would go below the number of sockets if it ran twice.
- Socket ids: a connecting socket's id is required never to have been seen before, as socket.io's generated ids are.
- SQLite: the driver and a failure to open the file are not modelled. A failed INSERT is assumed to use up no id. A table persisted by an earlier run is required to be well formed: ids increasing in scan order, below the next id, and exactly one of content or image per row.
- Store.Listing: the snapshot query at server.js:72 has no ORDER BY. The model lists rows in insertion (rowid) order, which is what SQLite's plain table scan gives but does not promise.
- Traces.BroadcastsArePersisted: a user's own text signed "System" that ends in the join suffix looks on the wire exactly like an announcement, so it is exempted too; the per-handler lemma `Traces.ChatMessageStored` still shows it is stored.
- Multer: disk storage, the field name and the 5 MB limit are not modelled. An oversized upload fails inside the middleware, before the route body runs. The route sees only "file with this name" or "no file".
- Express plumbing: static files, the `/` route and `server.listen` are not modelled.
- Logging with `console.log` and `console.error` is not modelled.
- The socket transport: each socket is an outbox sequence, and delivery and its failures are not modelled.
- public/script.js: the browser UI is not part of this model, including its trimming of names and messages before sending.
