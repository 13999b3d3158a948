/** The browser's table of other participants' cursors, keyed by the socket
    id each cursor record carries. */
module RemoteCursors {
  import opened Protocol

  type CursorTable = map<Value, Payload>

  /** cursor-update: insert or overwrite the entry of the record's socket id. */
  function WithCursor(table: CursorTable, cursor: Payload): (r: CursorTable)
    ensures Get(cursor, "socketId") in r && r[Get(cursor, "socketId")] == cursor
    ensures forall k :: k != Get(cursor, "socketId") ==> (k in r <==> k in table)
    ensures forall k :: k != Get(cursor, "socketId") && k in r ==> r[k] == table[k]
  {
    table[Get(cursor, "socketId") := cursor]
  }

  /** What user-left leaves: every cursor whose username differs. */
  function Remaining(table: CursorTable, username: Value): (r: CursorTable)
    ensures forall k :: k in r <==> k in table && Get(table[k], "username") != username
    ensures forall k :: k in r ==> r[k] == table[k]
  {
    map k | k in table && Get(table[k], "username") != username :: table[k]
  }

  /** user-left: copy the table, then walk its entries deleting those of the
      departed username. */
  method WithoutUser(table: CursorTable, username: Value) returns (next: CursorTable)
    ensures next == Remaining(table, username)
  {
    next := table;
    var pending := table.Keys;
    while pending != {}
      invariant pending <= table.Keys
      invariant forall k :: k in next <==> k in table && (k in pending || Get(table[k], "username") != username)
      invariant forall k :: k in next ==> next[k] == table[k]
      decreases |pending|
    {
      var k :| k in pending;
      if Get(next[k], "username") == username {
        next := next - {k};
      }
      pending := pending - {k};
    }
  }

  /** A later cursor record from the same socket replaces the earlier one. */
  lemma LatestCursorWins(table: CursorTable, first: Payload, second: Payload)
    requires Get(first, "socketId") == Get(second, "socketId")
    ensures WithCursor(WithCursor(table, first), second) == WithCursor(table, second)
  {
  }

  /** Once a user has left, none of their cursors is left, and removing them
      again changes nothing. */
  lemma LeavingIsComplete(table: CursorTable, username: Value)
    ensures forall k :: k in Remaining(table, username) ==> Get(Remaining(table, username)[k], "username") != username
    ensures Remaining(Remaining(table, username), username) == Remaining(table, username)
  {
  }

  /** A cursor update from a user who then leaves is not kept. */
  lemma LeaveRemovesUpdate(table: CursorTable, cursor: Payload)
    ensures Get(cursor, "socketId") !in Remaining(WithCursor(table, cursor), Get(cursor, "username"))
  {
  }
}
