/** End-to-end runs of the server and the browser model, each stating what
    the system does in one concrete situation. */
module Scenarios {
  import opened Protocol
  import opened Records
  import opened BoardIds
  import opened Presence
  import opened Rooms
  import opened Server
  import opened UndoHistory
  import opened Tools
  import opened Client

  /** Alice creates "Sprint Planning", Bob later joins a board of the same
      name: both land on "sprint-planning", the board keeps Alice as its
      creator, Bob's missing role becomes editor, and with the draws picked
      here (the first and the second palette entry) they get different
      colours. */
  method SameNameSameBoard(name: string, now: int)
      returns (alice: JoinReply, bob: JoinReply, creator: string)
    requires name == "Sprint Planning"
    ensures alice.JoinOk? && bob.JoinOk?
    ensures alice.boardId == "sprint-planning" && bob.boardId == "sprint-planning"
    ensures alice.color != bob.color && bob.role == EditorRole
    ensures creator == "alice"
  {
    SprintPlanning(name);
    var store := new Store();
    alice := store.JoinRoute(name, "alice", AdminRole, 0, now, true);
    bob := store.JoinRoute(name, "bob", "", 1, now + 1, true);
    creator := store.boards[bob.boardId].createdBy;
    assert Palette[0] != Palette[1];
  }

  /** Colours are drawn independently per join, so two participants on one
      board whose draws pick the same entry get the same colour. */
  method SharedColour(boardName: string, pick: nat, now: int) returns (alice: JoinReply, bob: JoinReply)
    requires boardName != "" && pick < |Palette|
    ensures alice.JoinOk? && bob.JoinOk?
    ensures alice.boardId == bob.boardId
    ensures alice.color == bob.color == Palette[pick]
  {
    var store := new Store();
    alice := store.JoinRoute(boardName, "alice", AdminRole, pick, now, true);
    bob := store.JoinRoute(boardName, "bob", EditorRole, pick, now + 1, true);
  }

  /** A new connection on `store` that joins `boardId` with every store call
      succeeding. */
  method JoinAs(store: Store, id: SocketId, boardId: string, username: string, role: string, color: string, now: int)
      returns (c: Connection)
    requires store.Valid() && boardId != ""
    modifies store
    ensures fresh(c) && c.store == store && c.Valid()
    ensures c.currentUser == Some(Session(username, role, color, id)) && c.currentBoardId == boardId
    ensures store.boards == old(store.boards)
    ensures store.users == old(store.users)[UserKey(username, boardId) :=
                             Upserted(old(store.users), Session(username, role, color, id), boardId, now)]
  {
    c := new Connection(id, store);
    var _ := c.JoinBoard(boardId, username, role, color, now, true, true, true);
  }

  /** Two participants join the same board a moment apart: the users-update
      sent on the second join lists both. */
  method BothListed(boardId: string, now: int) returns (listed: set<string>)
    requires boardId != ""
    ensures listed == {"alice", "bob"}
  {
    var store := new Store();
    var _ := JoinAs(store, "socket-a", boardId, "alice", AdminRole, Palette[0], now);
    var b := new Connection("socket-b", store);
    var out := b.JoinBoard(boardId, "bob", EditorRole, Palette[1], now + 1, true, true, true);
    var update := out[2].event.users;
    assert update == ActiveUsers(store.users, boardId, now + 1);
    assert store.users.Keys == {UserKey("alice", boardId), UserKey("bob", boardId)};
    assert IsActive(store.users[UserKey("alice", boardId)], now + 1);
    assert "alice" in update;
    listed := update.Keys;
  }

  /** A viewer's clear-board changes nothing and reaches nobody; the clear
      button of a viewer's browser sends nothing. */
  method ViewerCannotClear(boardId: string, snapshot: string, now: int)
      returns (sent: seq<Emit>, kept: Option<string>, browserSent: seq<Outgoing>)
    requires boardId != ""
    ensures sent == [] && kept == Some(snapshot) && browserSent == []
  {
    var store := new Store();
    store.boards := map[boardId := WithSnapshot(NewBoard(boardId, "Board", "alice", now), snapshot, now)];
    var c := new Connection("socket-v", store);
    var _ := c.JoinBoard(boardId, "vera", ViewerRole, Palette[2], now, true, true, true);
    sent := c.ClearBoard(now + 1, true);
    kept := store.boards[boardId].canvasData;
    var page := new Whiteboard("vera", ViewerRole);
    browserSent := page.ClearBoard(true);
  }

  /** An admin demotes Bob to viewer: everyone in the room is told and
      Bob's stored role changes. */
  method DemotionAnnounced(boardId: string, now: int) returns (announced: seq<Emit>, storedRole: string)
    requires boardId != ""
    ensures announced == [Emit(RoleChanged("bob", ViewerRole, "alice"), All(boardId))]
    ensures storedRole == ViewerRole
  {
    var store := new Store();
    var admin := JoinAs(store, "socket-a", boardId, "alice", AdminRole, Palette[0], now);
    var _ := JoinAs(store, "socket-b", boardId, "bob", EditorRole, Palette[1], now);
    announced := admin.ChangeRole("bob", ViewerRole, true);
    storedRole := store.users[UserKey("bob", boardId)].role;
  }

  /** The setup of the demotion above on a board that holds `snapshot`:
      Alice (admin) and Bob (editor) join, and Alice demotes Bob. */
  method JoinThenDemote(boardId: string, snapshot: string, now: int) returns (store: Store, bob: Connection)
    requires boardId != ""
    ensures fresh(store) && bob.store == store && bob.Valid()
    ensures bob.currentUser == Some(Session("bob", EditorRole, Palette[1], "socket-b"))
    ensures bob.currentBoardId == boardId && boardId in store.boards
    ensures UserKey("bob", boardId) in store.users && store.users[UserKey("bob", boardId)].role == ViewerRole
  {
    store := new Store();
    store.boards := map[boardId := WithSnapshot(NewBoard(boardId, "Board", "alice", now), snapshot, now)];
    var admin := JoinAs(store, "socket-a", boardId, "alice", AdminRole, Palette[0], now);
    bob := JoinAs(store, "socket-b", boardId, "bob", EditorRole, Palette[1], now);
    var _ := admin.ChangeRole("bob", ViewerRole, true);
  }

  /** After that demotion Bob's connection keeps the role it joined with,
      so his strokes are still relayed and his clear-board still clears.
      His browser keeps the role it logged in with as well (a `Whiteboard`'s
      role is fixed at construction, and no browser handler listens for
      role-changed), so its own viewer guards do not stop him either. */
  method DemotedStillClears(boardId: string, snapshot: string, now: int)
      returns (drawn: seq<Emit>, cleared: seq<Emit>, kept: Option<string>)
    requires boardId != ""
    ensures |drawn| == 1 && drawn[0].target == Others(boardId)
    ensures cleared == [Emit(BoardCleared("bob"), All(boardId))]
    ensures kept == None
  {
    var store, bob := JoinThenDemote(boardId, snapshot, now);
    drawn := bob.Draw(map["tool" := Str("pen")], now + 1, true);
    cleared := bob.ClearBoard(now + 2, true);
    kept := store.boards[boardId].canvasData;
  }

  /** A socket that joins a second board and then disconnects is removed
      only from the second board's session set: its id stays in the first. */
  method SwitchLeavesStaleSession(first: string, second: string, now: int) returns (stale: bool, gone: bool)
    requires first != "" && second != "" && first != second
    ensures stale && gone
  {
    var store := new Store();
    var c := new Connection("socket-c", store);
    var _ := c.JoinBoard(first, "carol", EditorRole, Palette[3], now, true, true, true);
    var _ := c.JoinBoard(second, "carol", EditorRole, Palette[3], now + 1, true, true, true);
    var _ := c.Disconnect(now + 2, true, true);
    stale := "socket-c" in Members(store.activeSessions, first);
    gone := "socket-c" !in Members(store.activeSessions, second);
  }

  /** The save scheduled on mouse-up appends to the history as it was at
      mouse-up: a board-cleared that arrives before the save fires is
      undone, and the cleared snapshot can be reached again by undo. */
  method SaveAfterRemoteClear(first: string, second: string, p: Point)
      returns (history: seq<string>, afterUndo: Option<string>)
    requires first != ""
    ensures history == [first, second]
    ensures afterUndo == Some(first)
  {
    var page := new Whiteboard("bob", EditorRole);
    page.LoadInitial(first);
    page.StartDrawing(p);
    var _ := page.StopDrawing(p, "");
    page.OnBoardCleared(true);
    assert page.Shown() == Empty();
    var _ := page.SaveFires(second);
    history := page.history;
    page.Undo();
    afterUndo := Current(page.Shown());
  }
}
