/**
  Runs of the coordinator: any sequence of handler invocations the transport can deliver,
  applied one at a time from a given state, and the properties that hold over every run.
 */
module Traces {
  import opened Events
  import Store
  import opened Relay

  /** One handler invocation, with the outcome of the database call it makes. */
  datatype Action =
    | Connect(s: SessionId, readOk: bool)
    | SendText(sender: SessionId, msg: string, username: string, insertOk: bool)
    | StartTyping(sender: SessionId, username: string)
    | Join(sender: SessionId, username: string)
    | Disconnect(s: SessionId)
    | UploadImage(file: Option<string>, formUsername: Option<string>, insertOk: bool)

  /**
    What the transport guarantees before it runs a handler: a connecting socket has an id never
    seen before, and socket handlers (disconnect included) run only for a connected socket.
   */
  predicate Enabled(st: State, a: Action) {
    match a
    case Connect(s, _) => s !in st.outbox
    case SendText(sender, _, _, _) => sender in st.sessions
    case StartTyping(sender, _) => sender in st.sessions
    case Join(sender, _) => sender in st.sessions
    case Disconnect(s) => s in st.sessions
    case UploadImage(_, _, _) => true
  }

  /** The state after handler `a` has run to completion. */
  function Apply(st: State, a: Action): (r: State)
    requires Valid(st) && Enabled(st, a)
    ensures Valid(r) && Grows(st, r)
  {
    match a
    case Connect(s, readOk) =>
      ConnectKeepsValid(st, s, readOk);
      OnConnect(st, s, readOk)
    case SendText(sender, msg, username, ok) =>
      ChatMessageKeepsValid(st, sender, msg, username, ok);
      OnChatMessage(st, sender, msg, username, ok)
    case StartTyping(sender, username) =>
      TypingKeepsValid(st, sender, username);
      OnTyping(st, sender, username)
    case Join(sender, username) =>
      UserJoinedKeepsValid(st, sender, username);
      OnUserJoined(st, sender, username)
    case Disconnect(s) =>
      DisconnectKeepsValid(st, s);
      OnDisconnect(st, s)
    case UploadImage(file, name, ok) =>
      UploadKeepsValid(st, file, name, ok);
      OnUpload(st, file, name, ok).state
  }

  /** Every step of `tr`, run in order from `st`, is one the transport can deliver. */
  ghost predicate Admissible(st: State, tr: seq<Action>)
    requires Valid(st)
    decreases |tr|
  {
    tr == [] || (Enabled(st, tr[0]) && Admissible(Apply(st, tr[0]), tr[1..]))
  }

  /** The state after running the handlers of `tr` one after another from `st`. */
  function Run(st: State, tr: seq<Action>): (r: State)
    requires Valid(st) && Admissible(st, tr)
    ensures Valid(r)
    decreases |tr|
  {
    if tr == [] then st else Run(Apply(st, tr[0]), tr[1..])
  }

  /** Number of connections in `tr`. */
  function Connects(tr: seq<Action>): nat {
    if tr == [] then 0 else (if tr[0].Connect? then 1 else 0) + Connects(tr[1..])
  }

  /** Number of disconnections in `tr`. */
  function Disconnects(tr: seq<Action>): nat {
    if tr == [] then 0 else (if tr[0].Disconnect? then 1 else 0) + Disconnects(tr[1..])
  }

  /** The handler runs an INSERT and it succeeds: a text send, or an upload that carried a file. */
  predicate Persists(a: Action) {
    (a.SendText? && a.insertOk) || (a.UploadImage? && a.file.Some? && a.insertOk)
  }

  /** Number of handler runs in `tr` that persist a row. */
  function Inserts(tr: seq<Action>): nat {
    if tr == [] then 0 else (if Persists(tr[0]) then 1 else 0) + Inserts(tr[1..])
  }

  /** One handler adds a row exactly when it persists one, and then exactly one. */
  lemma ApplyRows(st: State, a: Action)
    requires Valid(st) && Enabled(st, a)
    ensures |Apply(st, a).table.rows| == |st.table.rows| + (if Persists(a) then 1 else 0)
  {
  }

  /** Presence bookkeeping: each connect adds one to `activeUsers`, each disconnect takes one away, nothing else touches it. */
  lemma {:induction false} RunCount(st: State, tr: seq<Action>)
    requires Valid(st) && Admissible(st, tr)
    ensures Run(st, tr).count == st.count + Connects(tr) - Disconnects(tr)
    decreases |tr|
  {
    if tr != [] {
      RunCount(Apply(st, tr[0]), tr[1..]);
    }
  }

  /**
    From a server just started on whatever table chat.db holds, `activeUsers` is the number of
    connects minus the number of disconnects, equals the number of connected sockets, and so is
    never negative.
   */
  lemma PresenceCount(t: Store.Table, tr: seq<Action>)
    requires Store.Valid(t) && OneBody(t.rows) && Admissible(Start(t), tr)
    ensures Run(Start(t), tr).count == Connects(tr) - Disconnects(tr)
    ensures Run(Start(t), tr).count == |Run(Start(t), tr).sessions|
    ensures Disconnects(tr) <= Connects(tr)
  {
    RunCount(Start(t), tr);
  }

  /** Which handlers persist a row: exactly the successful text sends and the successful uploads of a file. */
  lemma {:induction false} RunRows(st: State, tr: seq<Action>)
    requires Valid(st) && Admissible(st, tr)
    ensures |Run(st, tr).table.rows| == |st.table.rows| + Inserts(tr)
    decreases |tr|
  {
    if tr != [] {
      ApplyRows(st, tr[0]);
      RunRows(Apply(st, tr[0]), tr[1..]);
    }
  }

  /** The table is append-only and the outboxes only grow, over any run. */
  lemma {:induction false} RunGrows(st: State, tr: seq<Action>)
    requires Valid(st) && Admissible(st, tr)
    ensures Grows(st, Run(st, tr))
    decreases |tr|
  {
    if tr != [] {
      var mid := Apply(st, tr[0]);
      RunGrows(mid, tr[1..]);
      GrowsTransitive(st, mid, Run(mid, tr[1..]));
    }
  }

  /** Growth composes across consecutive steps. */
  lemma GrowsTransitive(a: State, b: State, c: State)
    requires Grows(a, b) && Grows(b, c)
    ensures Grows(a, c)
  {
  }

  /** A socket that has disconnected is sent nothing more, whatever happens afterwards. */
  lemma {:induction false} ClosedStaysSilent(st: State, tr: seq<Action>, s: SessionId)
    requires Valid(st) && Admissible(st, tr)
    requires s in st.outbox && s !in st.sessions
    ensures s in Run(st, tr).outbox && s !in Run(st, tr).sessions
    ensures Run(st, tr).outbox[s] == st.outbox[s]
    decreases |tr|
  {
    if tr != [] {
      ClosedStaysSilent(Apply(st, tr[0]), tr[1..], s);
    }
  }

  /** Some row has exactly these three columns. */
  ghost predicate HasRow(rows: seq<Row>, content: Option<string>, image: Option<string>, username: string) {
    exists i :: 0 <= i < |rows| && rows[i].content == content && rows[i].image == image && rows[i].username == username
  }

  /** A `chat message` with the shape of a `user joined` announcement: signed "System", ending in `JoinedSuffix`. */
  predicate IsJoinAnnouncement(msg: string, username: string) {
    username == SystemName && |JoinedSuffix| <= |msg| && msg[|msg| - |JoinedSuffix|..] == JoinedSuffix
  }

  /** A pushed `chat image`, or a pushed `chat message` that is not a join announcement, has its row in the table. */
  ghost predicate Stored(rows: seq<Row>, e: Event) {
    match e
    case ChatMessage(msg, username) => IsJoinAnnouncement(msg, username) || HasRow(rows, Some(msg), None, username)
    case ChatImage(path, username) => HasRow(rows, None, Some(path), username)
    case _ => true
  }

  /**
    Persist first, broadcast after: every image and every user message other than an
    announcement-shaped one that any socket was ever sent is in the table.
   */
  ghost predicate Backed(st: State) {
    forall t, k :: t in st.outbox && 0 <= k < |st.outbox[t]| ==> Stored(st.table.rows, st.outbox[t][k])
  }

  /** Every event that `r` has pushed beyond what `st` had pushed is backed by `r`'s table. */
  ghost predicate NewEventsStored(st: State, r: State) {
    forall t, k :: t in r.outbox && 0 <= k < |r.outbox[t]| && (t in st.outbox ==> |st.outbox[t]| <= k) ==>
      Stored(r.table.rows, r.outbox[t][k])
  }

  /** If the old events were backed and only appended-to, and the new ones are backed, all are. */
  lemma BackedStep(st: State, r: State)
    requires Backed(st) && Grows(st, r) && NewEventsStored(st, r)
    ensures Backed(r)
  {
  }

  /**
    A text send broadcasts only after its row is in the table; a successful send stores its row
    whatever the text and the name, announcement-shaped or not.
   */
  lemma ChatMessageStored(st: State, sender: SessionId, msg: string, username: string, insertOk: bool)
    requires Valid(st) && sender in st.sessions
    ensures NewEventsStored(st, OnChatMessage(st, sender, msg, username, insertOk))
    ensures insertOk ==> HasRow(OnChatMessage(st, sender, msg, username, insertOk).table.rows, Some(msg), None, username)
  {
  }

  /** An upload broadcasts `chat image` only after its row is in the table. */
  lemma UploadStored(st: State, file: Option<string>, username: Option<string>, insertOk: bool)
    requires Valid(st)
    ensures NewEventsStored(st, OnUpload(st, file, username, insertOk).state)
  {
  }

  /** Every event connect pushes needs no row (they are count updates and snapshots). */
  lemma ConnectStored(st: State, s: SessionId, readOk: bool)
    requires Valid(st) && s !in st.outbox
    ensures NewEventsStored(st, OnConnect(st, s, readOk))
  {
  }

  /** Every event disconnect pushes needs no row (they are count updates). */
  lemma DisconnectStored(st: State, s: SessionId)
    requires Valid(st) && s in st.sessions
    ensures NewEventsStored(st, OnDisconnect(st, s))
  {
  }

  /** Every event typing pushes needs no row (they are `typing` events). */
  lemma TypingStored(st: State, sender: SessionId, username: string)
    requires Valid(st) && sender in st.sessions
    ensures NewEventsStored(st, OnTyping(st, sender, username))
  {
  }

  /** Every message a join pushes has the announcement shape, so it needs no row. */
  lemma UserJoinedStored(st: State, sender: SessionId, username: string)
    requires Valid(st) && sender in st.sessions
    ensures NewEventsStored(st, OnUserJoined(st, sender, username))
  {
  }

  /** The events a handler pushes are backed by the table it leaves behind. */
  lemma ApplyBacked(st: State, a: Action)
    requires Valid(st) && Enabled(st, a) && Backed(st)
    ensures Backed(Apply(st, a))
  {
    match a {
      case SendText(sender, msg, username, ok) => ChatMessageStored(st, sender, msg, username, ok);
      case UploadImage(file, name, ok) => UploadStored(st, file, name, ok);
      case Connect(s, readOk) => ConnectStored(st, s, readOk);
      case Disconnect(s) => DisconnectStored(st, s);
      case StartTyping(sender, username) => TypingStored(st, sender, username);
      case Join(sender, username) => UserJoinedStored(st, sender, username);
    }
    BackedStep(st, Apply(st, a));
  }

  /**
    Over any run, no image and no user message other than an announcement-shaped one reaches a
    socket without its row having been stored first.
   */
  lemma {:induction false} RunBacked(st: State, tr: seq<Action>)
    requires Valid(st) && Admissible(st, tr) && Backed(st)
    ensures Backed(Run(st, tr))
    decreases |tr|
  {
    if tr != [] {
      ApplyBacked(st, tr[0]);
      RunBacked(Apply(st, tr[0]), tr[1..]);
    }
  }

  /**
    From a server just started on whatever table chat.db holds, every image and every user
    message other than an announcement-shaped one that any socket is sent is already in the table.
   */
  lemma BroadcastsArePersisted(t: Store.Table, tr: seq<Action>)
    requires Store.Valid(t) && OneBody(t.rows) && Admissible(Start(t), tr)
    ensures Backed(Run(Start(t), tr))
  {
    RunBacked(Start(t), tr);
  }

  // The states of a three-socket conversation, written out in full.

  const Hi: Event := ChatMessage("hi", "alice")
  const HiRow: Row := Row(1, Some("hi"), None, "alice")
  const Joined1: State := State(1, Store.Empty, {1}, map[1 := [UpdateActiveUsers(1), LoadMessages([], 1)]])
  const Joined2: State := State(2, Store.Empty, {1, 2}, map[
    1 := [UpdateActiveUsers(1), LoadMessages([], 1), UpdateActiveUsers(2)],
    2 := [UpdateActiveUsers(2), LoadMessages([], 2)]])
  const Joined3: State := State(3, Store.Empty, {1, 2, 3}, map[
    1 := [UpdateActiveUsers(1), LoadMessages([], 1), UpdateActiveUsers(2), UpdateActiveUsers(3)],
    2 := [UpdateActiveUsers(2), LoadMessages([], 2), UpdateActiveUsers(3)],
    3 := [UpdateActiveUsers(3), LoadMessages([], 3)]])
  const Said: State := State(3, Store.Table([HiRow], 2), {1, 2, 3}, map[
    1 := [UpdateActiveUsers(1), LoadMessages([], 1), UpdateActiveUsers(2), UpdateActiveUsers(3), Hi],
    2 := [UpdateActiveUsers(2), LoadMessages([], 2), UpdateActiveUsers(3), Hi],
    3 := [UpdateActiveUsers(3), LoadMessages([], 3), Hi]])
  const Left: State := State(2, Store.Table([HiRow], 2), {1, 3}, map[
    1 := [UpdateActiveUsers(1), LoadMessages([], 1), UpdateActiveUsers(2), UpdateActiveUsers(3), Hi, UpdateActiveUsers(2)],
    2 := [UpdateActiveUsers(2), LoadMessages([], 2), UpdateActiveUsers(3), Hi],
    3 := [UpdateActiveUsers(3), LoadMessages([], 3), Hi, UpdateActiveUsers(2)]])

  /** Socket 1 connects to a server started on an empty chat.db. */
  lemma FirstJoins()
    ensures OnConnect(Start(Store.Empty), 1, true) == Joined1
  {
  }

  /** Socket 2 connects. */
  lemma SecondJoins()
    ensures OnConnect(Joined1, 2, true) == Joined2
  {
    var r := OnConnect(Joined1, 2, true);
    assert r.outbox[1] == Joined2.outbox[1];
    assert r.outbox == Joined2.outbox;
  }

  /** Socket 3 connects. */
  lemma ThirdJoins()
    ensures OnConnect(Joined2, 3, true) == Joined3
  {
    var r := OnConnect(Joined2, 3, true);
    assert r.outbox[1] == Joined3.outbox[1];
    assert r.outbox[2] == Joined3.outbox[2];
    assert r.outbox == Joined3.outbox;
  }

  /** Socket 1 sends "hi" as "alice" and the insert succeeds. */
  lemma FirstSaysHi()
    ensures OnChatMessage(Joined3, 1, "hi", "alice", true) == Said
  {
    var r := OnChatMessage(Joined3, 1, "hi", "alice", true);
    assert r.table.rows == [HiRow];
    assert r.outbox[1] == Said.outbox[1];
    assert r.outbox[2] == Said.outbox[2];
    assert r.outbox[3] == Said.outbox[3];
    assert r.outbox == Said.outbox;
  }

  /** Socket 2 disconnects. */
  lemma SecondLeaves()
    ensures OnDisconnect(Said, 2) == Left
  {
    var r := OnDisconnect(Said, 2);
    assert r.outbox[1] == Left.outbox[1];
    assert r.outbox[3] == Left.outbox[3];
    assert r.outbox == Left.outbox;
  }

  /** Every intermediate state of the conversation satisfies the invariant. */
  lemma ConversationValid()
    ensures Valid(Joined1) && Valid(Joined2) && Valid(Joined3) && Valid(Said)
  {
  }

  /** The conversation, run from each of its intermediate states to its end. */
  lemma AfterHi()
    ensures Valid(Said) && Admissible(Said, [Disconnect(2)]) && Run(Said, [Disconnect(2)]) == Left
  {
    ConversationValid();
    SecondLeaves();
    RunCons(Said, Disconnect(2), []);
  }

  lemma AfterThirdJoins()
    ensures Valid(Joined3)
    ensures Admissible(Joined3, [SendText(1, "hi", "alice", true), Disconnect(2)])
    ensures Run(Joined3, [SendText(1, "hi", "alice", true), Disconnect(2)]) == Left
  {
    ConversationValid();
    FirstSaysHi();
    AfterHi();
    RunCons(Joined3, SendText(1, "hi", "alice", true), [Disconnect(2)]);
  }

  lemma AfterSecondJoins()
    ensures Valid(Joined2)
    ensures Admissible(Joined2, [Connect(3, true), SendText(1, "hi", "alice", true), Disconnect(2)])
    ensures Run(Joined2, [Connect(3, true), SendText(1, "hi", "alice", true), Disconnect(2)]) == Left
  {
    ConversationValid();
    ThirdJoins();
    AfterThirdJoins();
    RunCons(Joined2, Connect(3, true), [SendText(1, "hi", "alice", true), Disconnect(2)]);
  }

  lemma AfterFirstJoins()
    ensures Valid(Joined1)
    ensures Admissible(Joined1, [Connect(2, true), Connect(3, true), SendText(1, "hi", "alice", true), Disconnect(2)])
    ensures Run(Joined1, [Connect(2, true), Connect(3, true), SendText(1, "hi", "alice", true), Disconnect(2)]) == Left
  {
    ConversationValid();
    SecondJoins();
    AfterSecondJoins();
    RunCons(Joined1, Connect(2, true), [Connect(3, true), SendText(1, "hi", "alice", true), Disconnect(2)]);
  }

  /**
    Three sockets connect in turn and each is told it makes the count 1, 2, 3; the first sends
    "hi" as "alice", which is stored once and echoed to all three; the second leaves and the
    other two are told the count is back to 2.
   */
  lemma ThreeSessions()
    ensures
      var tr := [Connect(1, true), Connect(2, true), Connect(3, true), SendText(1, "hi", "alice", true), Disconnect(2)];
      Admissible(Start(Store.Empty), tr) && Run(Start(Store.Empty), tr) == Left
  {
    ConversationValid();
    FirstJoins();
    AfterFirstJoins();
    RunCons(Start(Store.Empty), Connect(1, true), [Connect(2, true), Connect(3, true), SendText(1, "hi", "alice", true), Disconnect(2)]);
  }

  /** Running `a` and then `rest` is running `[a] + rest`. */
  lemma RunCons(st: State, a: Action, rest: seq<Action>)
    requires Valid(st) && Enabled(st, a) && Admissible(Apply(st, a), rest)
    ensures Admissible(st, [a] + rest) && Run(st, [a] + rest) == Run(Apply(st, a), rest)
  {
  }
}
