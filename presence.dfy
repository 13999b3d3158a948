/** Who counts as present on a board: the 30-second active-user query and the
    periodic sweep that deletes stale user records. */
module Presence {
  import opened Records

  /** The projection the active-user query selects from a record. */
  function Listing(u: User): ActiveUser {
    ActiveUser(u.username, u.role, u.color, u.lastActive)
  }

  /** The usernames with an active record on the board. */
  function ActiveNames(users: map<UserKey, User>, boardId: string, now: int): (names: set<string>)
    ensures forall name :: name in names <==>
      UserKey(name, boardId) in users && IsActive(users[UserKey(name, boardId)], now)
  {
    set k | k in users && k.boardId == boardId && IsActive(users[k], now) :: k.username
  }

  /** The users-update list of a board at time `now`: one entry per username
      whose record on that board was active in the last 30 seconds. */
  function ActiveUsers(users: map<UserKey, User>, boardId: string, now: int): (r: map<string, ActiveUser>)
    ensures forall name :: name in r <==>
      UserKey(name, boardId) in users && IsActive(users[UserKey(name, boardId)], now)
    ensures forall name :: name in r ==> r[name] == Listing(users[UserKey(name, boardId)])
  {
    map name | name in ActiveNames(users, boardId, now) :: Listing(users[UserKey(name, boardId)])
  }

  /** What getActiveUsers returns: the board's list when the query is
      answered, and an empty list when it fails. */
  function ActiveUsersQuery(users: map<UserKey, User>, boardId: string, now: int, answered: bool)
    : (r: map<string, ActiveUser>)
    ensures answered ==> r == ActiveUsers(users, boardId, now)
    ensures !answered ==> r == map[]
  {
    if answered then ActiveUsers(users, boardId, now) else map[]
  }

  /** The user records left after the sweep at time `now`. */
  function Swept(users: map<UserKey, User>, now: int): (r: map<UserKey, User>)
    ensures forall k :: k in r <==> k in users && !IsExpired(users[k], now)
    ensures forall k :: k in r ==> r[k] == users[k]
  {
    map k | k in users && !IsExpired(users[k], now) :: users[k]
  }

  /** At the same instant, no record is both listed as active and deleted by
      the sweep, and every record the sweep leaves is active. */
  lemma ListedSurviveSweep(users: map<UserKey, User>, boardId: string, now: int)
    ensures forall name :: name in ActiveUsers(users, boardId, now) ==> UserKey(name, boardId) in Swept(users, now)
    ensures forall k :: k in Swept(users, now) ==> IsActive(Swept(users, now)[k], now)
  {
  }

  /** A sweep does not change any board's users-update list at that instant. */
  lemma SweepKeepsActiveUsers(users: map<UserKey, User>, boardId: string, now: int)
    ensures ActiveUsers(Swept(users, now), boardId, now) == ActiveUsers(users, boardId, now)
  {
  }

  /** At any instant a record is on the active list exactly when a sweep at
      that instant keeps it, and a record refreshed at that instant is on
      the list. */
  lemma SilenceExpires(u: User, now: int)
    ensures IsActive(u, now) <==> !IsExpired(u, now)
    ensures u.lastActive == now ==> IsActive(u, now)
  {
  }
}
