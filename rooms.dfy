/** The events the server sends and to whom: the sender alone, the others in
    the board's room, or everyone in it. A room is the board's session set. */
module Rooms {
  import opened Protocol
  import opened Records

  datatype Target = Sender | Others(room: string) | All(room: string)

  datatype Event =
    | JoinedBoard(canvasData: Option<string>, user: Session)
    | UserJoined(joiner: string, color: string, role: string)
    | UsersUpdate(users: map<string, ActiveUser>)
    | DrawRelayed(data: Payload)
    | CanvasUpdated(blob: string)
    | BoardCleared(clearedBy: string)
    | CursorUpdate(cursor: Payload)
    | RoleChanged(target: string, newRole: string, changedBy: string)
    | UserLeft(leaver: string)
    | ErrorMessage(message: string)

  datatype Emit = Emit(event: Event, target: Target)

  /** The session set of a room; a board without one has no members. */
  function Members(sessions: map<string, set<SocketId>>, room: string): set<SocketId> {
    if room in sessions then sessions[room] else {}
  }

  /** The sockets an emission reaches, read from the session sets when it is
      sent. The sender receives it exactly when it is addressed to the sender
      alone, or to everyone in a room the sender is a member of. */
  function Recipients(t: Target, sender: SocketId, sessions: map<string, set<SocketId>>): (r: set<SocketId>)
    ensures sender in r <==> t.Sender? || (t.All? && sender in Members(sessions, t.room))
    ensures !t.Sender? ==> r <= Members(sessions, t.room)
    ensures t.All? ==> r == Members(sessions, t.room)
    ensures t.Sender? ==> r == {sender}
    ensures t.Others? ==> r == Members(sessions, t.room) - {sender}
  {
    match t
    case Sender => {sender}
    case Others(room) => Members(sessions, room) - {sender}
    case All(room) => Members(sessions, room)
  }

  /** The draw broadcast: the client's fields, with username and color
      replaced by the sender's own. */
  function DrawRelay(data: Payload, who: Session): (r: Payload)
    ensures Get(r, "username") == Str(who.username) && Get(r, "color") == Str(who.color)
    ensures forall f :: f != "username" && f != "color" ==> Get(r, f) == Get(data, f)
    ensures r.Keys == data.Keys + {"username", "color"}
  {
    data["username" := Str(who.username)]["color" := Str(who.color)]
  }

  /** The cursor record: the client's fields, with username, color and
      socketId replaced by the sender's own. */
  function CursorRelay(data: Payload, who: Session): (r: Payload)
    ensures Get(r, "username") == Str(who.username) && Get(r, "color") == Str(who.color)
    ensures Get(r, "socketId") == Str(who.socketId)
    ensures forall f :: f != "username" && f != "color" && f != "socketId" ==> Get(r, f) == Get(data, f)
    ensures r.Keys == data.Keys + {"username", "color", "socketId"}
  {
    data["username" := Str(who.username)]["color" := Str(who.color)]["socketId" := Str(who.socketId)]
  }

  /** The session sets after socket `id` joins `room`: a missing set is
      created, and every other room is untouched. */
  function Entered(sessions: map<string, set<SocketId>>, room: string, id: SocketId): (r: map<string, set<SocketId>>)
    ensures room in r && r[room] == Members(sessions, room) + {id}
    ensures forall other :: other != room ==> (other in r <==> other in sessions)
    ensures forall other :: other != room && other in r ==> r[other] == sessions[other]
  {
    sessions[room := Members(sessions, room) + {id}]
  }

  /** Session sets after `id` leaves `room`: the id is gone from it, an
      emptied set is deleted, and every other room is untouched. */
  function Departed(sessions: map<string, set<SocketId>>, room: string, id: SocketId): (r: map<string, set<SocketId>>)
    ensures Members(r, room) == Members(sessions, room) - {id}
    ensures room in r <==> Members(r, room) != {}
    ensures forall other :: other != room ==> (other in r <==> other in sessions)
    ensures forall other :: other != room && other in r ==> r[other] == sessions[other]
  {
    if room in sessions then
      var rest := sessions[room] - {id};
      if rest == {} then sessions - {room} else sessions[room := rest]
    else sessions
  }
}
