/** The server's stored records, keyed as its collections key them, and the
    constants the server uses. */
module Records {
  import opened Protocol

  type SocketId = string

  const AdminRole := "admin"
  const EditorRole := "editor"
  const ViewerRole := "viewer"

  /** A record counts as active for this long after its last activity (ms). */
  const ActiveWindowMs := 30000

  /** The colours the join route hands out. */
  const Palette: seq<string> := ["#ef4444", "#f59e0b", "#10b981", "#3b82f6", "#8b5cf6", "#ec4899"]

  /** Users are stored once per (username, board). */
  datatype UserKey = UserKey(username: string, boardId: string)

  datatype User = User(
    username: string,
    boardId: string,
    role: string,
    color: string,
    socketId: Option<SocketId>,
    lastActive: int,
    createdAt: int)

  datatype Board = Board(
    boardId: string,
    name: string,
    canvasData: Option<string>,
    drawingHistory: seq<string>,
    createdBy: string,
    createdAt: int,
    updatedAt: int)

  /** One entry of the append-only drawing log. */
  datatype Drawing = Drawing(
    boardId: string,
    userId: SocketId,
    username: string,
    action: string,
    data: Payload,
    timestamp: int)

  /** A connection's `currentUser`: who joined over it, as the join said. */
  datatype Session = Session(username: string, role: string, color: string, socketId: SocketId)

  /** One entry of a users-update list: the fields the active-user query selects. */
  datatype ActiveUser = ActiveUser(username: string, role: string, color: string, lastActive: int)

  predicate IsActive(u: User, now: int) {
    u.lastActive >= now - ActiveWindowMs
  }

  /** What the cleanup sweep deletes. */
  predicate IsExpired(u: User, now: int) {
    u.lastActive < now - ActiveWindowMs
  }

  /** The latest snapshot of a board is the last entry of its history, and a
      board has no snapshot exactly when its history is empty. */
  predicate SnapshotConsistent(b: Board) {
    if b.canvasData.None? then b.drawingHistory == []
    else b.drawingHistory != [] && b.drawingHistory[|b.drawingHistory| - 1] == b.canvasData.value
  }

  /** A board as the join route creates it. */
  function NewBoard(boardId: string, name: string, createdBy: string, now: int): (b: Board)
    ensures SnapshotConsistent(b) && b.drawingHistory == [] && b.canvasData == None
  {
    Board(boardId, name, None, [], createdBy, now, now)
  }

  /** save-canvas's update of a board: the blob becomes the latest snapshot
      and is appended to the history, which grows by exactly one entry. */
  function WithSnapshot(b: Board, blob: string, now: int): (r: Board)
    ensures r.canvasData == Some(blob) && SnapshotConsistent(r)
    ensures |r.drawingHistory| == |b.drawingHistory| + 1
    ensures r.drawingHistory[..|b.drawingHistory|] == b.drawingHistory
    ensures r.boardId == b.boardId && r.name == b.name && r.createdBy == b.createdBy
    ensures r.createdAt == b.createdAt && r.updatedAt == now
  {
    b.(canvasData := Some(blob), drawingHistory := b.drawingHistory + [blob], updatedAt := now)
  }

  /** clear-board's update of a board: no snapshot and no history. */
  function Cleared(b: Board, now: int): (r: Board)
    ensures r.canvasData == None && r.drawingHistory == [] && SnapshotConsistent(r)
    ensures r.boardId == b.boardId && r.name == b.name && r.createdBy == b.createdBy
    ensures r.createdAt == b.createdAt && r.updatedAt == now
  {
    b.(canvasData := None, drawingHistory := [], updatedAt := now)
  }

  /** The record join-board leaves under (who.username, boardId): an existing
      record keeps its creation time and gets role, colour, socket and
      activity refreshed; otherwise a new record is made. */
  function Upserted(prior: map<UserKey, User>, who: Session, boardId: string, now: int): (u: User)
    requires UserKey(who.username, boardId) in prior ==> prior[UserKey(who.username, boardId)].boardId == boardId
    ensures u.username == who.username && u.boardId == boardId
    ensures u.role == who.role && u.color == who.color
    ensures u.socketId == Some(who.socketId) && u.lastActive == now
    ensures u.createdAt == if UserKey(who.username, boardId) in prior
                           then prior[UserKey(who.username, boardId)].createdAt else now
  {
    var key := UserKey(who.username, boardId);
    if key in prior then
      prior[key].(username := who.username, role := who.role, color := who.color,
                  socketId := Some(who.socketId), lastActive := now)
    else
      User(who.username, boardId, who.role, who.color, Some(who.socketId), now, now)
  }

  /** Joining twice in a row with the same details at the same instant
      leaves the same single record as joining once. */
  lemma RejoinIsIdempotent(users: map<UserKey, User>, who: Session, boardId: string, now: int)
    requires UserKey(who.username, boardId) in users ==> users[UserKey(who.username, boardId)].boardId == boardId
    ensures var key := UserKey(who.username, boardId);
      var once := users[key := Upserted(users, who, boardId, now)];
      && once.Keys == users.Keys + {key}
      && once[key := Upserted(once, who, boardId, now)] == once
  {
  }
}
