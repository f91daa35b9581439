/**
  The event coordinator of the chat server as a state machine on values. One function per
  socket or HTTP handler gives the state after that handler has run to completion; Node runs
  handlers one at a time, so each is a single atomic step. A database call that may fail is
  an `ok` input.
 */
module Relay {
  import opened Events
  import Store

  /**
    `count` is the process-wide `activeUsers`; `table` the `messages` table; `sessions` the
    sockets currently connected; `outbox[t]` every event pushed to socket `t` so far. A socket
    keeps its outbox after it disconnects, and that outbox never grows again.
   */
  datatype State = State(
    count: int,
    table: Store.Table,
    sessions: set<SessionId>,
    outbox: map<SessionId, seq<Event>>)

  /** Every row holds either a text or an image path, never both and never neither. */
  ghost predicate OneBody(rows: seq<Row>) {
    forall i :: 0 <= i < |rows| ==> rows[i].content.Some? != rows[i].image.Some?
  }

  /**
    The coordinator's invariant: the counter equals the number of connected sockets, every
    connected socket has an outbox, and the table's ids are well formed.
   */
  ghost predicate Valid(st: State) {
    && st.count == |st.sessions|
    && st.sessions <= st.outbox.Keys
    && Store.Valid(st.table)
    && OneBody(st.table.rows)
  }

  /**
    The server just started on the table `t` that chat.db already holds (rows written before a
    restart survive it): no sockets, nothing pushed, `activeUsers = 0`.
   */
  function Start(t: Store.Table): (r: State)
    requires Store.Valid(t) && OneBody(t.rows)
    ensures Valid(r) && r.table == t
    ensures r.count == 0 && r.sessions == {} && r.outbox == map[]
  {
    State(0, t, {}, map[])
  }

  /** Nothing is ever taken back: no row is rewritten, no pushed event is retracted. */
  ghost predicate Grows(st: State, st': State) {
    && Store.AppendOnly(st.table.rows, st'.table.rows)
    && st.outbox.Keys <= st'.outbox.Keys
    && (forall t :: t in st.outbox ==> st.outbox[t] <= st'.outbox[t])
  }

  /** Pushing `e` to every socket in `targets`: each target's outbox gains `e` at its end, no other outbox changes. */
  function Broadcast(outbox: map<SessionId, seq<Event>>, targets: set<SessionId>, e: Event): (r: map<SessionId, seq<Event>>)
    ensures r.Keys == outbox.Keys
    ensures forall t :: t in outbox && t in targets ==> r[t] == outbox[t] + [e]
    ensures forall t :: t in outbox && t !in targets ==> r[t] == outbox[t]
  {
    map t | t in outbox :: if t in targets then outbox[t] + [e] else outbox[t]
  }

  /**
    `io.on('connection')`: raise `activeUsers`, push the new count to every socket (the new one
    included), then, once the table has been read, push the snapshot to the new socket only.
    A failed read sends nothing more.
   */
  function OnConnect(st: State, s: SessionId, readOk: bool): (r: State)
    requires st.sessions <= st.outbox.Keys && s !in st.outbox
    ensures r.sessions == st.sessions + {s} && r.count == st.count + 1
    ensures r.table == st.table
    ensures r.outbox.Keys == st.outbox.Keys + {s}
    ensures forall t :: t in st.sessions ==> r.outbox[t] == st.outbox[t] + [UpdateActiveUsers(r.count)]
    ensures forall t :: t in st.outbox && t !in st.sessions ==> r.outbox[t] == st.outbox[t]
    ensures readOk ==> r.outbox[s] == [UpdateActiveUsers(r.count), LoadMessages(Store.Listing(st.table.rows), r.count)]
    ensures !readOk ==> r.outbox[s] == [UpdateActiveUsers(r.count)]
  {
    var count := st.count + 1;
    var snapshot := LoadMessages(Store.Listing(st.table.rows), count);
    var others := Broadcast(st.outbox, st.sessions, UpdateActiveUsers(count));
    // the new socket sees the count first and the snapshot after it
    State(count, st.table, st.sessions + {s},
          others[s := [UpdateActiveUsers(count)] + (if readOk then [snapshot] else [])])
  }

  /**
    Running the connection handler's statements in their own order (count up, the new socket
    joins, the count goes to everyone, then the snapshot goes to the new socket) pushes the
    same events as `OnConnect`.
   */
  lemma ConnectInHandlerOrder(st: State, s: SessionId, readOk: bool)
    requires st.sessions <= st.outbox.Keys && s !in st.outbox
    ensures
      var count := st.count + 1;
      var announced := Broadcast(st.outbox[s := []], st.sessions + {s}, UpdateActiveUsers(count));
      var outbox :=
        if readOk then announced[s := announced[s] + [LoadMessages(Store.Listing(st.table.rows), count)]]
        else announced;
      outbox == OnConnect(st, s, readOk).outbox
  {
    var count := st.count + 1;
    var announced := Broadcast(st.outbox[s := []], st.sessions + {s}, UpdateActiveUsers(count));
    var outbox :=
      if readOk then announced[s := announced[s] + [LoadMessages(Store.Listing(st.table.rows), count)]]
      else announced;
    var spec := OnConnect(st, s, readOk).outbox;
    forall t | t in outbox
      ensures outbox[t] == spec[t]
    {
      if t != s {
        assert t in st.outbox;
      }
    }
    assert outbox == spec;
  }

  /** `socket.on('disconnect')`: lower `activeUsers` and push the new count to every socket still connected. */
  function OnDisconnect(st: State, s: SessionId): (r: State)
    requires st.sessions <= st.outbox.Keys && s in st.sessions
    ensures r.sessions == st.sessions - {s} && r.count == st.count - 1
    ensures r.table == st.table
    ensures r.outbox.Keys == st.outbox.Keys
    ensures forall t :: t in r.sessions ==> r.outbox[t] == st.outbox[t] + [UpdateActiveUsers(r.count)]
    ensures forall t :: t in st.outbox && t !in r.sessions ==> r.outbox[t] == st.outbox[t]
  {
    var count := st.count - 1;
    var sessions := st.sessions - {s};
    State(count, st.table, sessions, Broadcast(st.outbox, sessions, UpdateActiveUsers(count)))
  }

  /**
    `socket.on('chat message')`: insert `(msg, NULL, username)`, and only if the insert
    succeeded push `chat message` to every connected socket, the sender included. The text is
    stored and relayed as received: it is neither trimmed nor checked for emptiness.
   */
  function OnChatMessage(st: State, sender: SessionId, msg: string, username: string, insertOk: bool): (r: State)
    requires Store.Valid(st.table) && st.sessions <= st.outbox.Keys && sender in st.sessions
    ensures r.count == st.count && r.sessions == st.sessions && r.outbox.Keys == st.outbox.Keys
    ensures !insertOk ==> r == st
    ensures insertOk ==> |r.table.rows| == |st.table.rows| + 1
    ensures insertOk ==> var row := r.table.rows[|st.table.rows|];
      row.content == Some(msg) && row.image == None && row.username == username
    ensures insertOk ==> forall t :: t in st.sessions ==> r.outbox[t] == st.outbox[t] + [ChatMessage(msg, username)]
    ensures forall t :: t in st.outbox && t !in st.sessions ==> r.outbox[t] == st.outbox[t]
  {
    if !insertOk then st
    else
      var table := Store.Insert(st.table, Some(msg), None, username);
      st.(table := table, outbox := Broadcast(st.outbox, st.sessions, ChatMessage(msg, username)))
  }

  /** `socket.on('typing')`: push `typing` to every connected socket except the sender; nothing is stored. */
  function OnTyping(st: State, sender: SessionId, username: string): (r: State)
    requires st.sessions <= st.outbox.Keys && sender in st.sessions
    ensures r.count == st.count && r.sessions == st.sessions && r.table == st.table
    ensures r.outbox.Keys == st.outbox.Keys
    ensures r.outbox[sender] == st.outbox[sender]
    ensures forall t :: t in st.sessions && t != sender ==> r.outbox[t] == st.outbox[t] + [Typing(username)]
    ensures forall t :: t in st.outbox && t !in st.sessions ==> r.outbox[t] == st.outbox[t]
  {
    st.(outbox := Broadcast(st.outbox, st.sessions - {sender}, Typing(username)))
  }

  /** What the announcement `user joined` appends to the name: " joined the conversation" in Arabic. */
  const JoinedSuffix: string := " انضم إلى المحادثة"

  /** Text of the announcement `user joined` sends: the name followed by `JoinedSuffix`. */
  function JoinedText(username: string): (r: string)
    ensures |r| == |username| + |JoinedSuffix|
    ensures r[..|username|] == username && r[|username|..] == JoinedSuffix
  {
    username + JoinedSuffix
  }

  /**
    `socket.on('user joined')`: push a `chat message` from "System" announcing the name to every
    connected socket. Nothing is stored and the name is not recorded anywhere.
   */
  function OnUserJoined(st: State, sender: SessionId, username: string): (r: State)
    requires st.sessions <= st.outbox.Keys && sender in st.sessions
    ensures r.count == st.count && r.sessions == st.sessions && r.table == st.table
    ensures r.outbox.Keys == st.outbox.Keys
    ensures forall t :: t in st.sessions ==> r.outbox[t] == st.outbox[t] + [ChatMessage(JoinedText(username), SystemName)]
    ensures forall t :: t in st.outbox && t !in st.sessions ==> r.outbox[t] == st.outbox[t]
  {
    st.(outbox := Broadcast(st.outbox, st.sessions, ChatMessage(JoinedText(username), SystemName)))
  }

  /** `req.body.username || 'Unknown'`: a missing or empty form field becomes "Unknown". */
  function Uploader(username: Option<string>): (r: string)
    ensures r != ""
    ensures username.Some? && username.value != "" ==> r == username.value
    ensures username.None? || username.value == "" ==> r == "Unknown"
  {
    match username
    case Some(u) => if u != "" then u else "Unknown"
    case None => "Unknown"
  }

  /** Public path under which an uploaded file is served. */
  function ImagePath(filename: string): (r: string)
    ensures |r| == |"/uploads/"| + |filename|
    ensures r[..|"/uploads/"|] == "/uploads/" && r[|"/uploads/"|..] == filename
  {
    "/uploads/" + filename
  }

  /** The state after an upload request and the reply it gets. */
  datatype Outcome = Outcome(state: State, response: Response)

  /**
    `POST /upload`: no file is a 400; otherwise insert `(NULL, imagePath, username)`; a failed
    insert is a 500 and nothing is pushed; a successful one pushes `chat image` to every
    connected socket and replies 200.
   */
  function OnUpload(st: State, file: Option<string>, username: Option<string>, insertOk: bool): (r: Outcome)
    requires Store.Valid(st.table) && st.sessions <= st.outbox.Keys
    ensures Store.Valid(r.state.table)
    ensures r.state.count == st.count && r.state.sessions == st.sessions
    ensures r.state.outbox.Keys == st.outbox.Keys
    ensures file.None? ==> r.state == st && r.response.status == 400
    ensures file.Some? && !insertOk ==> r.state == st && r.response.status == 500
    ensures file.Some? && insertOk ==> r.response.status == 200 && |r.state.table.rows| == |st.table.rows| + 1
    ensures file.Some? && insertOk ==> var row := r.state.table.rows[|st.table.rows|];
      row.content == None && row.image == Some(ImagePath(file.value)) && row.username == Uploader(username)
    ensures file.Some? && insertOk ==> forall t :: t in st.sessions ==>
      r.state.outbox[t] == st.outbox[t] + [ChatImage(ImagePath(file.value), Uploader(username))]
    ensures forall t :: t in st.outbox && t !in st.sessions ==> r.state.outbox[t] == st.outbox[t]
  {
    match file
    case None => Outcome(st, Response(400, "No file uploaded."))
    case Some(filename) =>
      var imagePath := ImagePath(filename);
      var name := Uploader(username);
      if !insertOk then Outcome(st, Response(500, "Failed to save image."))
      else
        var table := Store.Insert(st.table, None, Some(imagePath), name);
        Outcome(st.(table := table, outbox := Broadcast(st.outbox, st.sessions, ChatImage(imagePath, name))),
                Response(200, "Image uploaded successfully."))
  }

  // Each handler keeps the coordinator's invariant and takes nothing back.

  lemma ConnectKeepsValid(st: State, s: SessionId, readOk: bool)
    requires Valid(st) && s !in st.outbox
    ensures Valid(OnConnect(st, s, readOk)) && Grows(st, OnConnect(st, s, readOk))
  {
  }

  lemma DisconnectKeepsValid(st: State, s: SessionId)
    requires Valid(st) && s in st.sessions
    ensures Valid(OnDisconnect(st, s)) && Grows(st, OnDisconnect(st, s))
  {
  }

  lemma ChatMessageKeepsValid(st: State, sender: SessionId, msg: string, username: string, insertOk: bool)
    requires Valid(st) && sender in st.sessions
    ensures Valid(OnChatMessage(st, sender, msg, username, insertOk))
    ensures Grows(st, OnChatMessage(st, sender, msg, username, insertOk))
  {
  }

  lemma TypingKeepsValid(st: State, sender: SessionId, username: string)
    requires Valid(st) && sender in st.sessions
    ensures Valid(OnTyping(st, sender, username)) && Grows(st, OnTyping(st, sender, username))
  {
  }

  lemma UserJoinedKeepsValid(st: State, sender: SessionId, username: string)
    requires Valid(st) && sender in st.sessions
    ensures Valid(OnUserJoined(st, sender, username)) && Grows(st, OnUserJoined(st, sender, username))
  {
  }

  lemma UploadKeepsValid(st: State, file: Option<string>, username: Option<string>, insertOk: bool)
    requires Valid(st)
    ensures Valid(OnUpload(st, file, username, insertOk).state)
    ensures Grows(st, OnUpload(st, file, username, insertOk).state)
  {
  }
}
