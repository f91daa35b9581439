/**
  The coordinator as the server keeps it: the module-level `activeUsers` counter, the
  `messages` table and the connected sockets, updated in place by one method per handler,
  statement by statement in the order the handler runs them. Each method is proved to leave
  exactly the state the matching function of `Relay` describes.
 */
module Server {
  import opened Events
  import Store
  import Relay

  class Coordinator {
    var activeUsers: int
    var rows: seq<Row>
    var nextId: nat
    var sessions: set<SessionId>
    var outbox: map<SessionId, seq<Event>>

    /** The value this object stands for. */
    function Model(): Relay.State
      reads this
    {
      Relay.State(activeUsers, Store.Table(rows, nextId), sessions, outbox)
    }

    ghost predicate Valid()
      reads this
    {
      Relay.Valid(Model())
    }

    /**
      Server start: `let activeUsers = 0`, and the messages table is whatever chat.db already
      holds (`CREATE TABLE IF NOT EXISTS` keeps it), together with its AUTOINCREMENT counter.
     */
    constructor (t: Store.Table)
      requires Store.Valid(t) && Relay.OneBody(t.rows)
      ensures Valid() && Model() == Relay.Start(t)
    {
      activeUsers, rows, nextId := 0, t.rows, t.nextId;
      sessions, outbox := {}, map[];
    }

    /** A successful INSERT into the table; the handlers call it only on their success path. */
    method Append(content: Option<string>, image: Option<string>, username: string)
      requires Store.Valid(Store.Table(rows, nextId))
      modifies this`rows, this`nextId
      ensures Store.Table(rows, nextId) == Store.Insert(old(Store.Table(rows, nextId)), content, image, username)
    {
      var t := Store.Insert(Store.Table(rows, nextId), content, image, username);
      rows, nextId := t.rows, t.nextId;
    }

    /** `io.on('connection')`. */
    method Connect(s: SessionId, readOk: bool)
      requires Valid() && s !in outbox
      modifies this
      ensures Valid() && Model() == Relay.OnConnect(old(Model()), s, readOk)
    {
      ghost var before := Model();
      Relay.ConnectKeepsValid(before, s, readOk);
      Relay.ConnectInHandlerOrder(before, s, readOk);
      activeUsers := activeUsers + 1;
      sessions := sessions + {s};
      outbox := Relay.Broadcast(outbox[s := []], sessions, UpdateActiveUsers(activeUsers));
      if readOk {
        // the table-read callback: a snapshot of every row and the counter as it reads now
        outbox := outbox[s := outbox[s] + [LoadMessages(Store.Listing(rows), activeUsers)]];
      }
      assert activeUsers == before.count + 1 && sessions == before.sessions + {s};
      assert Store.Table(rows, nextId) == before.table;
      assert Model() == Relay.OnConnect(before, s, readOk);
    }

    /** `socket.on('disconnect')`. */
    method Disconnect(s: SessionId)
      requires Valid() && s in sessions
      modifies this
      ensures Valid() && Model() == Relay.OnDisconnect(old(Model()), s)
    {
      ghost var before := Model();
      activeUsers := activeUsers - 1;
      sessions := sessions - {s};
      outbox := Relay.Broadcast(outbox, sessions, UpdateActiveUsers(activeUsers));
      Relay.DisconnectKeepsValid(before, s);
    }

    /** `socket.on('chat message')`: the broadcast runs in the insert's callback, and only when it succeeded. */
    method ChatMessage(sender: SessionId, msg: string, username: string, insertOk: bool)
      requires Valid() && sender in sessions
      modifies this
      ensures Valid() && Model() == Relay.OnChatMessage(old(Model()), sender, msg, username, insertOk)
    {
      ghost var before := Model();
      if insertOk {
        Append(Some(msg), None, username);
        outbox := Relay.Broadcast(outbox, sessions, Event.ChatMessage(msg, username));
      }
      Relay.ChatMessageKeepsValid(before, sender, msg, username, insertOk);
    }

    /** `socket.on('typing')`: `socket.broadcast.emit`, so everyone but the sender. */
    method Typing(sender: SessionId, username: string)
      requires Valid() && sender in sessions
      modifies this
      ensures Valid() && Model() == Relay.OnTyping(old(Model()), sender, username)
    {
      ghost var before := Model();
      outbox := Relay.Broadcast(outbox, sessions - {sender}, Event.Typing(username));
      Relay.TypingKeepsValid(before, sender, username);
    }

    /** `socket.on('user joined')`. */
    method UserJoined(sender: SessionId, username: string)
      requires Valid() && sender in sessions
      modifies this
      ensures Valid() && Model() == Relay.OnUserJoined(old(Model()), sender, username)
    {
      ghost var before := Model();
      outbox := Relay.Broadcast(outbox, sessions, Event.ChatMessage(Relay.JoinedText(username), SystemName));
      Relay.UserJoinedKeepsValid(before, sender, username);
    }

    /** `app.post('/upload')`, after the upload middleware has stored the file (if any) on disk. */
    method Upload(file: Option<string>, username: Option<string>, insertOk: bool) returns (response: Response)
      requires Valid()
      modifies this
      ensures Valid()
      ensures Relay.Outcome(Model(), response) == Relay.OnUpload(old(Model()), file, username, insertOk)
    {
      ghost var before := Model();
      Relay.UploadKeepsValid(before, file, username, insertOk);
      if file.None? {
        return Response(400, "No file uploaded.");
      }
      var imagePath := Relay.ImagePath(file.value);
      var name := Relay.Uploader(username);
      if !insertOk {
        return Response(500, "Failed to save image.");
      }
      Append(None, Some(imagePath), name);
      outbox := Relay.Broadcast(outbox, sessions, ChatImage(imagePath, name));
      response := Response(200, "Image uploaded successfully.");
    }
  }
}
