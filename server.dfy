/** The server: its stored collections and in-memory session maps (`Store`),
    the REST join route and the cleanup sweep, and one `Connection` per socket
    holding that socket's `currentUser` and `currentBoardId`, whose methods are
    the socket's event handlers. Each handler is one atomic step at time `now`;
    a `bool` parameter says whether the store write it awaits succeeded. It
    returns what it emits. */
module Server {
  import opened Protocol
  import opened Records
  import opened BoardIds
  import opened Presence
  import opened Rooms

  /** What the join route answers. */
  datatype JoinReply =
    | BadRequest
    | ServerError
    | JoinOk(boardId: string, name: string, canvasData: Option<string>,
             username: string, role: string, color: string)

  /** Every user record sits under its own (username, boardId). */
  ghost predicate UsersKeyed(users: map<UserKey, User>) {
    forall k :: k in users ==> users[k].username == k.username && users[k].boardId == k.boardId
  }

  ghost predicate BoardsKeyed(boards: map<string, Board>) {
    forall id :: id in boards ==> boards[id].boardId == id && SnapshotConsistent(boards[id])
  }

  /** A board's session set is deleted once it is emptied. */
  ghost predicate NoEmptyRoom(sessions: map<string, set<SocketId>>) {
    forall room :: room in sessions ==> sessions[room] != {}
  }

  ghost predicate CursorsKeyed(cursors: map<SocketId, Payload>) {
    forall s :: s in cursors ==> Get(cursors[s], "socketId") == Str(s)
  }

  lemma StoreUnderKey(users: map<UserKey, User>, k: UserKey, u: User)
    requires UsersKeyed(users) && u.username == k.username && u.boardId == k.boardId
    ensures UsersKeyed(users[k := u])
  {
  }

  lemma EnteredKeepsRooms(sessions: map<string, set<SocketId>>, room: string, id: SocketId)
    requires NoEmptyRoom(sessions)
    ensures NoEmptyRoom(Entered(sessions, room, id))
  {
  }

  lemma DepartedKeepsRooms(sessions: map<string, set<SocketId>>, room: string, id: SocketId)
    requires NoEmptyRoom(sessions)
    ensures NoEmptyRoom(Departed(sessions, room, id))
  {
  }

  class Store {
    var users: map<UserKey, User>
    var boards: map<string, Board>
    var drawings: seq<Drawing>
    /** Board id to the ids of the sockets that joined it. */
    var activeSessions: map<string, set<SocketId>>
    /** Socket id to the last cursor record it sent. */
    var userCursors: map<SocketId, Payload>

    ghost predicate Valid()
      reads this
    {
      UsersKeyed(users) && BoardsKeyed(boards) && NoEmptyRoom(activeSessions) && CursorsKeyed(userCursors)
    }

    constructor ()
      ensures Valid()
      ensures users == map[] && boards == map[] && drawings == []
      ensures activeSessions == map[] && userCursors == map[]
    {
      users, boards, drawings := map[], map[], [];
      activeSessions, userCursors := map[], map[];
    }

    /** POST /api/boards/join. An empty string stands for a missing field.
        `pick` is the palette index the random draw chose. */
    method JoinRoute(boardName: string, username: string, role: string, pick: nat, now: int, stored: bool)
      returns (reply: JoinReply)
      requires Valid()
      requires pick < |Palette|
      modifies this`boards
      ensures Valid()
      ensures boardName == "" || username == "" ==> reply == BadRequest && boards == old(boards)
      ensures boardName != "" && username != "" && !stored ==> reply == ServerError && boards == old(boards)
      ensures boardName != "" && username != "" && stored ==>
        var id := BoardIdOf(boardName);
        && boards == (if id in old(boards) then old(boards)
                      else old(boards)[id := NewBoard(id, boardName, username, now)])
        && reply == JoinOk(id, boards[id].name, boards[id].canvasData, username,
                           if role == "" then EditorRole else role, Palette[pick])
    {
      if boardName == "" || username == "" {
        return BadRequest;
      }
      var boardId := BoardIdOf(boardName);
      if !stored {
        return ServerError;
      }
      if boardId !in boards {
        boards := boards[boardId := NewBoard(boardId, boardName, username, now)];
      }
      var board := boards[boardId];
      var color := Palette[pick];
      reply := JoinOk(board.boardId, board.name, board.canvasData, username,
                      if role == "" then EditorRole else role, color);
    }

    /** The periodic cleanup: delete every user record inactive for more
        than 30 seconds; a failed delete leaves every record. Session sets
        and cursors are not touched. */
    method Sweep(now: int, stored: bool)
      requires Valid()
      modifies this`users
      ensures Valid()
      ensures !stored ==> users == old(users)
      ensures stored ==> users == Swept(old(users), now)
      ensures stored ==> forall k :: k in users ==> IsActive(users[k], now)
      ensures forall b :: ActiveUsers(users, b, now) == ActiveUsers(old(users), b, now)
    {
      if !stored {
        return;
      }
      users := Swept(users, now);
      forall b ensures ActiveUsers(users, b, now) == ActiveUsers(old(users), b, now) {
        SweepKeepsActiveUsers(old(users), b, now);
      }
    }
  }

  class Connection {
    const id: SocketId
    const store: Store
    var currentUser: Option<Session>
    /** The board this socket last joined; "" while it has joined none. */
    var currentBoardId: string

    ghost predicate Valid()
      reads this, store
    {
      && store.Valid()
      && (currentUser.Some? ==> currentUser.value.socketId == id)
      && (currentUser.None? ==> currentBoardId == "")
    }

    /** The guard of draw, cursor-move, heartbeat, clear-board and change-role. */
    predicate Joined()
      reads this
    {
      currentBoardId != "" && currentUser.Some?
    }

    function Key(): UserKey
      reads this
      requires currentUser.Some?
    {
      UserKey(currentUser.value.username, currentBoardId)
    }

    constructor (id: SocketId, store: Store)
      requires store.Valid()
      ensures Valid() && !Joined()
      ensures this.id == id && this.store == store
      ensures currentUser == None && currentBoardId == ""
    {
      this.id := id;
      this.store := store;
      currentUser := None;
      currentBoardId := "";
    }

    /** join-board. The connection state is assigned before the user record is
        written, so it stays assigned when that write fails. `stored` says
        whether the upsert succeeded, `loaded` whether the board lookup
        after it did, and `listed` whether the active-user query was
        answered. */
    method JoinBoard(boardId: string, username: string, role: string, color: string, now: int,
                     stored: bool, loaded: bool, listed: bool)
      returns (out: seq<Emit>)
      requires Valid()
      modifies this, store
      ensures Valid()
      ensures currentUser == Some(Session(username, role, color, id)) && currentBoardId == boardId
      ensures store.boards == old(store.boards) && store.drawings == old(store.drawings)
      ensures store.userCursors == old(store.userCursors)
      ensures !stored ==>
        && store.users == old(store.users) && store.activeSessions == old(store.activeSessions)
        && out == [Emit(ErrorMessage("Failed to join board"), Sender)]
      ensures stored ==>
        var who := Session(username, role, color, id);
        && store.users == old(store.users)[UserKey(username, boardId) := Upserted(old(store.users), who, boardId, now)]
        && store.activeSessions == Entered(old(store.activeSessions), boardId, id)
        && out == if !loaded then [Emit(ErrorMessage("Failed to join board"), Sender)]
                  else [Emit(JoinedBoard(if boardId in store.boards then store.boards[boardId].canvasData else None, who), Sender),
                        Emit(UserJoined(username, color, role), Others(boardId)),
                        Emit(UsersUpdate(ActiveUsersQuery(store.users, boardId, now, listed)), All(boardId))]
      ensures stored ==> store.users.Keys == old(store.users).Keys + {UserKey(username, boardId)}
      ensures stored ==> username in ActiveUsers(store.users, boardId, now)
    {
      var who := Session(username, role, color, id);
      currentUser := Some(who);
      currentBoardId := boardId;
      if !stored {
        out := [Emit(ErrorMessage("Failed to join board"), Sender)];
        return;
      }
      var key := UserKey(username, boardId);
      var record := Upserted(store.users, who, boardId, now);
      StoreUnderKey(store.users, key, record);
      EnteredKeepsRooms(store.activeSessions, boardId, id);
      store.users := store.users[key := record];
      store.activeSessions := Entered(store.activeSessions, boardId, id);
      if !loaded {
        out := [Emit(ErrorMessage("Failed to join board"), Sender)];
        return;
      }
      var canvasData := if boardId in store.boards then store.boards[boardId].canvasData else None;
      out := [Emit(JoinedBoard(canvasData, who), Sender),
              Emit(UserJoined(username, color, role), Others(boardId)),
              Emit(UsersUpdate(ActiveUsersQuery(store.users, boardId, now, listed)), All(boardId))];
    }

    /** draw: relayed to the others with the sender's own username and colour,
        whatever the sender's role; logged when the log write succeeds. */
    method Draw(data: Payload, now: int, logged: bool) returns (out: seq<Emit>)
      requires Valid()
      modifies store`drawings
      ensures Valid()
      ensures !Joined() ==> out == [] && store.drawings == old(store.drawings)
      ensures Joined() ==>
        && out == [Emit(DrawRelayed(DrawRelay(data, currentUser.value)), Others(currentBoardId))]
        && store.drawings == old(store.drawings) +
             (if logged then [Drawing(currentBoardId, id, currentUser.value.username, "draw", data, now)] else [])
    {
      if currentBoardId == "" || currentUser.None? {
        return [];
      }
      out := [Emit(DrawRelayed(DrawRelay(data, currentUser.value)), Others(currentBoardId))];
      if logged {
        store.drawings := store.drawings + [Drawing(currentBoardId, id, currentUser.value.username, "draw", data, now)];
      }
    }

    /** save-canvas: guarded by the board id alone; the snapshot replaces the
        board's latest and is appended to its history, and the others are told
        only after the write succeeded. */
    method SaveCanvas(canvasData: string, now: int, stored: bool) returns (out: seq<Emit>)
      requires Valid()
      modifies store`boards
      ensures Valid()
      ensures currentBoardId == "" || !stored ==> out == [] && store.boards == old(store.boards)
      ensures currentBoardId != "" && stored ==>
        && store.boards == (if currentBoardId in old(store.boards)
                            then old(store.boards)[currentBoardId := WithSnapshot(old(store.boards)[currentBoardId], canvasData, now)]
                            else old(store.boards))
        && out == [Emit(CanvasUpdated(canvasData), Others(currentBoardId))]
    {
      if currentBoardId == "" {
        return [];
      }
      if !stored {
        return [];
      }
      if currentBoardId in store.boards {
        var board := store.boards[currentBoardId];
        store.boards := store.boards[currentBoardId := WithSnapshot(board, canvasData, now)];
      }
      out := [Emit(CanvasUpdated(canvasData), Others(currentBoardId))];
    }

    /** clear-board: refused for a viewer; otherwise the board loses its
        snapshot and history and everyone in the room, sender included, is told. */
    method ClearBoard(now: int, stored: bool) returns (out: seq<Emit>)
      requires Valid()
      modifies store`boards
      ensures Valid()
      ensures !Joined() || currentUser.value.role == ViewerRole || !stored ==>
        out == [] && store.boards == old(store.boards)
      ensures Joined() && currentUser.value.role != ViewerRole && stored ==>
        && store.boards == (if currentBoardId in old(store.boards)
                            then old(store.boards)[currentBoardId := Cleared(old(store.boards)[currentBoardId], now)]
                            else old(store.boards))
        && out == [Emit(BoardCleared(currentUser.value.username), All(currentBoardId))]
    {
      if currentBoardId == "" || currentUser.None? {
        return [];
      }
      if currentUser.value.role == ViewerRole {
        return [];
      }
      if !stored {
        return [];
      }
      if currentBoardId in store.boards {
        var board := store.boards[currentBoardId];
        store.boards := store.boards[currentBoardId := Cleared(board, now)];
      }
      out := [Emit(BoardCleared(currentUser.value.username), All(currentBoardId))];
    }

    /** cursor-move: the socket's cursor record is overwritten and relayed to
        the others. */
    method CursorMove(data: Payload) returns (out: seq<Emit>)
      requires Valid()
      modifies store`userCursors
      ensures Valid()
      ensures !Joined() ==> out == [] && store.userCursors == old(store.userCursors)
      ensures Joined() ==>
        && store.userCursors == old(store.userCursors)[id := CursorRelay(data, currentUser.value)]
        && out == [Emit(CursorUpdate(CursorRelay(data, currentUser.value)), Others(currentBoardId))]
    {
      if currentBoardId == "" || currentUser.None? {
        return [];
      }
      var cursor := CursorRelay(data, currentUser.value);
      store.userCursors := store.userCursors[id := cursor];
      out := [Emit(CursorUpdate(cursor), Others(currentBoardId))];
    }

    /** change-role: only an admin's request is acted on; the stored role of
        (username, this board) changes, if there is such a record, and the
        change is announced to everyone in the room either way. No
        connection's `currentUser` changes. */
    method ChangeRole(username: string, newRole: string, stored: bool) returns (out: seq<Emit>)
      requires Valid()
      modifies store`users
      ensures Valid()
      ensures !Joined() || currentUser.value.role != AdminRole || !stored ==>
        out == [] && store.users == old(store.users)
      ensures Joined() && currentUser.value.role == AdminRole && stored ==>
        var key := UserKey(username, currentBoardId);
        && store.users == (if key in old(store.users)
                           then old(store.users)[key := old(store.users)[key].(role := newRole)]
                           else old(store.users))
        && out == [Emit(RoleChanged(username, newRole, currentUser.value.username), All(currentBoardId))]
    {
      if currentBoardId == "" || currentUser.None? {
        return [];
      }
      if currentUser.value.role != AdminRole {
        return [];
      }
      if !stored {
        return [];
      }
      var key := UserKey(username, currentBoardId);
      if key in store.users {
        store.users := store.users[key := store.users[key].(role := newRole)];
      }
      out := [Emit(RoleChanged(username, newRole, currentUser.value.username), All(currentBoardId))];
    }

    /** heartbeat: refreshes the activity time of an existing record only. */
    method Heartbeat(now: int, stored: bool)
      requires Valid()
      modifies store`users
      ensures Valid()
      ensures Joined() && stored && Key() in old(store.users) ==>
        store.users == old(store.users)[Key() := old(store.users)[Key()].(lastActive := now)]
      ensures !(Joined() && stored && Key() in old(store.users)) ==> store.users == old(store.users)
    {
      if currentUser.None? || currentBoardId == "" {
        return;
      }
      var key := Key();
      if stored && key in store.users {
        store.users := store.users[key := store.users[key].(lastActive := now)];
      }
    }

    /** disconnect of a socket that joined: it leaves its board's session set
        (an emptied set is deleted), its cursor is deleted, its record loses
        the socket id and is refreshed, and the room is told. Because the
        record is refreshed, the users-update sent here still lists the
        departing user; when the active-user query fails (`listed` false) it
        is an empty list. */
    method Disconnect(now: int, stored: bool, listed: bool) returns (out: seq<Emit>)
      requires Valid()
      modifies store`users, store`activeSessions, store`userCursors
      ensures Valid()
      ensures !Joined() ==>
        && out == [] && store.users == old(store.users)
        && store.activeSessions == old(store.activeSessions) && store.userCursors == old(store.userCursors)
      ensures Joined() ==>
        var key := Key();
        && store.activeSessions == Departed(old(store.activeSessions), currentBoardId, id)
        && store.userCursors == old(store.userCursors) - {id}
        && store.users == (if stored && key in old(store.users)
                           then old(store.users)[key := old(store.users)[key].(socketId := None, lastActive := now)]
                           else old(store.users))
        && out == [Emit(UserLeft(currentUser.value.username), Others(currentBoardId)),
                   Emit(UsersUpdate(ActiveUsersQuery(store.users, currentBoardId, now, listed)), All(currentBoardId))]
      ensures Joined() ==> id !in Members(store.activeSessions, currentBoardId)
      ensures Joined() && stored && listed && Key() in old(store.users) ==>
        currentUser.value.username in out[1].event.users
    {
      if currentBoardId == "" || currentUser.None? {
        return [];
      }
      DepartedKeepsRooms(store.activeSessions, currentBoardId, id);
      store.activeSessions := Departed(store.activeSessions, currentBoardId, id);
      store.userCursors := store.userCursors - {id};
      var key := Key();
      if stored && key in store.users {
        var record := store.users[key].(socketId := None, lastActive := now);
        StoreUnderKey(store.users, key, record);
        store.users := store.users[key := record];
      }
      out := [Emit(UserLeft(currentUser.value.username), Others(currentBoardId)),
              Emit(UsersUpdate(ActiveUsersQuery(store.users, currentBoardId, now, listed)), All(currentBoardId))];
    }
  }
}
