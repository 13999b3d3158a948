# PlanBoard whiteboard: a verified model of the session server and the board client

PlanBoard is a shared whiteboard. A browser asks the server's join route to
create or open a board by display name, then opens a socket and joins the
board's room. From then on it sends draw segments, canvas snapshots, cursor
positions, clears, role changes and heartbeats, and the server relays them to
the other members of the room. The server keeps users, boards and a drawing log
in a store, and keeps two in-memory maps beside it: the socket ids per board
and the last cursor per socket. The browser keeps an undo/redo history of
canvas snapshots and a table of the other participants' cursors.

This project models both ends in Dafny:

- `BoardIds` (board_ids.dfy): the board id the join route derives from a
  display name. It is lower-cased, and each maximal whitespace run becomes
  one `-`.
- `Records` (records.dfy): the stored records and the updates the handlers
  make to them.
- `Presence` (presence.dfy): the 30-second active-user query and the
  cleanup sweep.
- `Rooms` (rooms.dfy): emission targets, the relayed payloads, and the
  per-board session sets.
- `Server` (server.dfy): the class `Store`, which holds the collections and
  maps plus the join route and the sweep. The class `Connection` holds one
  socket's `currentUser` and `currentBoardId`, and its methods are the socket
  handlers. Each handler is one atomic step at an explicit time `now`, and it
  returns its emissions as (event, target) pairs.
- `UndoHistory` (history.dfy): the client's history as a value, with undo,
  redo, save, load and clear.
- `RemoteCursors` (cursors.dfy): the client's cursor table.
- `Tools` (tools.dfy): the draw messages, the sender's own rendering, and
  the dispatch in handleRemoteDraw.
- `Client` (whiteboard.dfy): the class `Whiteboard`, the board component's
  state and handlers.
- `Scenarios` (scenarios.dfy): end-to-end runs over the classes above.

Conventions:

- A falsy JavaScript string (missing, null or empty) is `""`.
- A flat JSON object is a `map<string, Value>`, and a missing field reads as
  `Undefined`.
- Whether an awaited store call succeeded is a `bool` parameter: `stored` or
  `logged` for a write, `loaded` for join-board's board lookup, and `listed`
  for the active-user query.
- The random palette choice is an index parameter.
- The room of a board is its session set in `activeSessions`.

Behaviour of the code worth knowing, which the model follows:

- On the server, only clear-board looks at the viewer role and only
  change-role looks at the admin role. Draw, cursor-move and heartbeat need
  only a join, and save-canvas needs only a board id.
- change-role updates only the stored record, so a demoted participant's
  connection keeps its joined role. Their draws are still relayed and their
  clear-board still clears (`Scenarios.DemotedStillClears`).
- A board's snapshot history grows by one on every save, with no cap. The
  500 ms debounce exists only in the browser.
- Disconnect does not delete the user record. It clears the socket id and
  refreshes the activity time, so the users-update sent on disconnect still
  lists the leaver, as long as the sweep has not already deleted the
  leaver's record: the update does not recreate a missing one
  (`Server.Connection.Disconnect`).
- Only join, heartbeat and disconnect refresh the activity time. Draw and
  the other actions do not.

## Model

| member | source | states |
|---|---|---|
| BoardIds.Lower | Backend/server.js:91 | `toLowerCase` on one character: the result is never upper case, it is whitespace exactly when the input is, and a character that is not upper case is unchanged |
| BoardIds.DropSpaces | Backend/server.js:91 | the rest of the name after a whitespace run (what `\s+` consumes) is no longer than the input and does not start with whitespace |
| BoardIds.BoardIdOf | Backend/server.js:91 | the board id contains no whitespace and no upper-case letter, and is no longer than the name |
| BoardIds.NormalizedIsFixed | Backend/server.js:91 | a string without whitespace or capitals is its own board id |
| BoardIds.BoardIdIdempotent | Backend/server.js:91 | deriving the id of a board id gives the same id |
| BoardIds.WordIsLowered | Backend/server.js:91 | a name without whitespace is only lower-cased |
| BoardIds.SpaceRunIsDash | Backend/server.js:91 | a whole run of whitespace, however long, becomes a single `-` |
| BoardIds.BoardIdAppend | Backend/server.js:91 | names that do not split a whitespace run are slugged piece by piece: the id of `a + b` is the id of `a` followed by the id of `b` |
| BoardIds.CaseInsensitive | Backend/server.js:91 | names that differ only in letter case get the same board id |
| BoardIds.TwoWords | Backend/server.js:91 | two words joined by one space become the two ids joined by `-` |
| BoardIds.SprintPlanning | Backend/server.js:91 | "Sprint Planning" gets the id "sprint-planning" |
| Records.NewBoard | Backend/server.js:96-101 | a board created by the join route has no snapshot and an empty history |
| Records.WithSnapshot | Backend/server.js:251-258 | save-canvas makes the blob the latest snapshot and appends it. The history grows by exactly one and its earlier entries are kept. Identity and creation fields stay the same |
| Records.Cleared | Backend/server.js:275-282 | clear-board leaves no snapshot and an empty history and keeps the board's identity |
| Records.Upserted | Backend/server.js:178-182 | the record join-board leaves under (username, board) carries the joined role, colour and socket id and the current time, and an existing record keeps its creation time |
| Records.RejoinIsIdempotent | Backend/server.js:178-182 | joining adds only its own key, and joining again with the same details at the same time changes nothing |
| Presence.ActiveNames | Backend/server.js:394-397 | a username is active on a board exactly when its record on that board has `lastActive >= now - 30000` |
| Presence.ActiveUsers | Backend/server.js:392-404 | users-update lists exactly the active usernames of the board, each with the record's role, colour and activity time |
| Presence.Swept | Backend/server.js:407-414 | the sweep keeps exactly the records with `lastActive >= now - 30000` and leaves them unchanged |
| Presence.ListedSurviveSweep | Backend/server.js:147 | at the same instant no listed record is swept, and every record the sweep leaves is active |
| Presence.ActiveUsersQuery | Backend/server.js:392-404 | getActiveUsers returns the board's active list when the query is answered and an empty list when it fails |
| Presence.SweepKeepsActiveUsers | Backend/server.js:392-414 | a sweep does not change any board's users-update list at that instant |
| Presence.SilenceExpires | Backend/server.js:396 | at one instant, a record is on the active list exactly when a sweep at that instant keeps it, and one refreshed at that instant is on the list |
| Rooms.Recipients | Backend/server.js:197-212 | a sender-only emission reaches only the sender. `socket.to(room)` reaches the room without the sender. `io.to(room)` reaches the whole room, the sender included when it is a member |
| Rooms.DrawRelay | Backend/server.js:226-230 | the relayed draw carries the sender's own username and join colour over the client's fields and keeps every other field |
| Rooms.CursorRelay | Backend/server.js:299-304 | the cursor record carries the sender's username, join colour and socket id, keeps every other client field, and has exactly the client's fields plus those three |
| Rooms.Entered | Backend/server.js:188-191 | joining creates the board's session set if needed and adds the socket id, and no other board's set changes |
| Rooms.Departed | Backend/server.js:358-364 | leaving removes the socket id, deletes a set that became empty, and leaves other boards alone |
| Server.Store.constructor | Backend/server.js:73-74 | the store and both in-memory maps start empty |
| Server.Store.JoinRoute | Backend/server.js:82-126 | Without a board name or username the route answers 400 and changes nothing. If the store fails it answers 500. Otherwise it creates the board only when its id is absent, so the first creator's name and createdBy stay. It answers with the stored board, the role defaulted to editor, and a palette colour |
| Server.Store.Sweep | Backend/server.js:407-414 | when the delete succeeds, user records become the swept ones and every remaining record is active; when it fails, no record changes. Either way no users-update list changes |
| Server.Connection.constructor | Backend/server.js:161-162 | a new socket has joined no board |
| Server.Connection.JoinBoard | Backend/server.js:165-219 | the connection state is set first, even when the write fails, and a failed write sends only an error to the sender. A successful write upserts the (username, board) record and adds the socket to the board's set. If the board lookup then fails, only the error goes to the sender and the record and set stay updated. Otherwise it sends joined-board to the sender, user-joined to the others, and to the whole room the users-update, which lists the joiner, or is empty when the active-user query fails |
| Server.Connection.Draw | Backend/server.js:222-244 | ignored before a join, whatever the role. Otherwise the relayed draw goes to the others, and the log gains one entry when its write succeeds |
| Server.Connection.SaveCanvas | Backend/server.js:247-267 | needs only a board id. After a successful write the board gets the snapshot and canvas-updated goes to the others. A failed write sends nothing |
| Server.Connection.ClearBoard | Backend/server.js:270-293 | ignored before a join, for a viewer, or when the write fails. Otherwise the board is cleared and board-cleared goes to the whole room, the sender included |
| Server.Connection.CursorMove | Backend/server.js:296-310 | ignored before a join. Otherwise the socket's cursor entry is overwritten and sent to the others |
| Server.Connection.ChangeRole | Backend/server.js:313-336 | Only an admin's request is acted on. The stored role of (target, board) changes if such a record exists. role-changed goes to the whole room even when none matched, and no connection state changes |
| Server.Connection.Heartbeat | Backend/server.js:339-350 | after a join, only the activity time of an existing record is refreshed |
| Server.Connection.Disconnect | Backend/server.js:353-388 | A socket that never joined changes nothing. Otherwise the socket leaves its board's set, its cursor is deleted, and its record loses the socket id and is refreshed. user-left goes to the others, and the users-update to the whole room still lists the leaver when the write and the active-user query succeed and the leaver's record still exists (the update does not upsert, so a record the sweep already deleted is not recreated); it is empty when the query fails |
| UndoHistory.Current | Frontend/src/components/Whiteboard.jsx:428 | a snapshot is on display exactly when the history is not empty |
| UndoHistory.Empty | Frontend/src/components/Whiteboard.jsx:32-33 | the mount state and the clear state show nothing and allow neither undo nor redo |
| UndoHistory.Loaded | Frontend/src/components/Whiteboard.jsx:63-64 | after loading the stored snapshot it is on display, with nothing to undo or redo |
| UndoHistory.Saved | Frontend/src/components/Whiteboard.jsx:413-416 | a save keeps the snapshots up to the displayed one, appends the new one and displays it. The length becomes step + 2 and nothing is left to redo |
| UndoHistory.Undone | Frontend/src/components/Whiteboard.jsx:423-426 | undo keeps the history and steps back by exactly one when the step is above 0; otherwise it changes nothing |
| UndoHistory.Redone | Frontend/src/components/Whiteboard.jsx:441-444 | redo keeps the history and steps forward by exactly one when the step is below the last index; otherwise it changes nothing |
| UndoHistory.RedoUndoes | Frontend/src/components/Whiteboard.jsx:422-452 | a redo takes back an undo that moved |
| UndoHistory.UndoRedoes | Frontend/src/components/Whiteboard.jsx:422-452 | an undo takes back a redo that moved |
| UndoHistory.UndoKeepsASnapshot | Frontend/src/components/Whiteboard.jsx:423 | undo never empties the display of a non-empty history |
| UndoHistory.UndoAfterSave | Frontend/src/components/Whiteboard.jsx:413-426 | undoing right after a save displays what was displayed before it |
| UndoHistory.SaveDropsRedoBranch | Frontend/src/components/Whiteboard.jsx:413-416 | a save made after an undo does not lengthen the history and leaves nothing to redo |
| UndoHistory.UndoneTimes | Frontend/src/components/Whiteboard.jsx:422-438 | any number of undos keeps the history valid |
| UndoHistory.RedoneTimes | Frontend/src/components/Whiteboard.jsx:440-452 | any number of redos keeps the history valid |
| UndoHistory.UndoneTimesStep | Frontend/src/components/Whiteboard.jsx:423-426 | n undos keep the history and step back n times, stopping at index 0 |
| UndoHistory.RedoneTimesStep | Frontend/src/components/Whiteboard.jsx:441-444 | n redos keep the history and step forward n times, stopping at the last index |
| UndoHistory.RedoneUndone | Frontend/src/components/Whiteboard.jsx:422-452 | k undos followed by k redos restore the state |
| RemoteCursors.WithCursor | Frontend/src/components/Whiteboard.jsx:138-144 | cursor-update sets the entry of its socket id and leaves every other entry as it was |
| RemoteCursors.Remaining | Frontend/src/components/Whiteboard.jsx:150-161 | after user-left exactly the cursors of other usernames remain, unchanged |
| RemoteCursors.WithoutUser | Frontend/src/components/Whiteboard.jsx:152-159 | the delete loop over the copied table computes exactly those remaining cursors |
| RemoteCursors.LatestCursorWins | Frontend/src/components/Whiteboard.jsx:141 | a later record from the same socket replaces the earlier one |
| RemoteCursors.LeavingIsComplete | Frontend/src/components/Whiteboard.jsx:152-159 | no cursor of the departed username is left, and removing it again changes nothing |
| RemoteCursors.LeaveRemovesUpdate | Frontend/src/components/Whiteboard.jsx:138-159 | the cursor of a user who then leaves is gone |
| Tools.FinishMessage | Frontend/src/components/Whiteboard.jsx:238-267 | mouse-up sends a draw exactly for non-empty text or one of the eight shapes. The message carries the tool, colour and size; a text message carries the text and the start point and no fill; a shape message carries the fill, the start point and the end point and no text |
| Tools.LocalStroke | Frontend/src/components/Whiteboard.jsx:214-228 | only pen, highlighter and eraser draw a segment while moving, only the eraser erases, the pen and highlighter draw in the picked colour, and the width is the size for the pen, three times it for the highlighter and four times it for the eraser |
| Tools.LocalFinish | Frontend/src/components/Whiteboard.jsx:238-256 | the sender draws a mark on mouse-up exactly when it sends one, in the picked colour |
| Tools.RemoteRenderAsWritten | Frontend/src/components/Whiteboard.jsx:393-404 | a received `text` is drawn as text and the eight shape names as shapes. Anything else becomes a painted line of the received size, at opacity 0.3 exactly for the highlighter. Every mark is in the received colour |
| Tools.RemoteRender | Frontend/src/components/Whiteboard.jsx:393-404 | corrected dispatch: text and shapes as above; a received highlighter is painted at 0.3 opacity and three times the received size, an eraser erases at four times it, and any other tool is painted opaque at the received size |
| Tools.EraserPaintsRemotely | Frontend/src/components/Whiteboard.jsx:222-228 | as written, an eraser segment that the sender erased is painted by the others as an opaque line in the sender's join colour, a quarter as wide |
| Tools.RelayRecolours | Backend/server.js:226-230 | a received mark is drawn in the sender's join colour, which differs from the colour the sender picked and drew in whenever the two differ |
| Tools.DefaultColourOffPalette | Frontend/src/components/Whiteboard.jsx:29 | the colour picker starts on a colour that is not one of the join colours, so the others never see a mark in the default colour its sender drew in |
| Tools.StrokeRendersAlike | Frontend/src/components/Whiteboard.jsx:214-228 | with the corrected dispatch, every relayed freehand segment is drawn by the others as its sender would draw it in its join colour: same stroke, width and opacity |
| Tools.FinishRendersAlike | Frontend/src/components/Whiteboard.jsx:238-267 | under either dispatch, every relayed text or shape is drawn by the others as its sender would draw it in its join colour: same kind, text or shape, size and fill |
| Client.Whiteboard.constructor | Frontend/src/components/Whiteboard.jsx:27-38 | pen, black, size 3, no fill, no stroke in progress, empty history at step -1, no cursors |
| Client.Whiteboard.LoadInitial | Frontend/src/components/Whiteboard.jsx:59-67 | a stored snapshot becomes the only history entry and is displayed; without one nothing changes |
| Client.Whiteboard.StartDrawing | Frontend/src/components/Whiteboard.jsx:181-195 | for a viewer nothing changes; otherwise a stroke starts at the point |
| Client.Whiteboard.Draw | Frontend/src/components/Whiteboard.jsx:197-229 | sends nothing for a viewer, with no stroke in progress, or for a non-freehand tool. Otherwise it sends the segment from the last point and continues from the new one |
| Client.Whiteboard.StopDrawing | Frontend/src/components/Whiteboard.jsx:231-271 | does nothing for a viewer or with no stroke in progress. Otherwise it sends the text or shape message, ends the stroke, and schedules a save of the history as it is now |
| Client.Whiteboard.SaveFires | Frontend/src/components/Whiteboard.jsx:406-420 | the scheduled save appends the image to the history captured when it was scheduled, displays it, and sends it |
| Client.Whiteboard.Undo | Frontend/src/components/Whiteboard.jsx:422-438 | for a viewer nothing changes; otherwise the history steps back as `Undone` says |
| Client.Whiteboard.Redo | Frontend/src/components/Whiteboard.jsx:440-452 | for a viewer nothing changes; otherwise the history steps forward as `Redone` says |
| Client.Whiteboard.ClearBoard | Frontend/src/components/Whiteboard.jsx:454-462 | for a viewer, or without confirmation, nothing changes and nothing is sent. Otherwise the history is reset and clear-board is sent |
| Client.Whiteboard.MouseMove | Frontend/src/components/Whiteboard.jsx:464-476 | a viewer or a page without a socket sends nothing, not even the cursor. Otherwise the cursor position goes first, followed by a segment when a freehand stroke is in progress |
| Client.Whiteboard.OnBoardCleared | Frontend/src/components/Whiteboard.jsx:122-132 | a received board-cleared resets the history once the canvas is mounted |
| Client.Whiteboard.OnCursorUpdate | Frontend/src/components/Whiteboard.jsx:138-144 | the table becomes `WithCursor` of the received record |
| Client.Whiteboard.OnUserLeft | Frontend/src/components/Whiteboard.jsx:150-161 | the table becomes `Remaining` after the leaver's username |
| Scenarios.SameNameSameBoard | Backend/server.js:91-118 | Alice and then Bob join "Sprint Planning". Both get "sprint-planning", Bob's missing role becomes editor, Alice stays the creator, and for the draws picked here (the first and second palette entries) their colours differ |
| Scenarios.SharedColour | Backend/server.js:106-107 | colours are drawn per join, so two participants of one board whose draws pick the same entry share a colour |
| Scenarios.BothListed | Backend/server.js:165-212 | after two participants join one board, the users-update lists both |
| Scenarios.ViewerCannotClear | Backend/server.js:270-272 | a viewer's clear-board sends nothing and the stored snapshot stays. The viewer's clear button (Frontend/src/components/Whiteboard.jsx:455) sends nothing either |
| Scenarios.DemotionAnnounced | Backend/server.js:313-330 | the admin's demotion of Bob reaches the whole room and changes his stored role |
| Scenarios.DemotedStillClears | Backend/server.js:222-294 | after that demotion Bob's draw is still relayed, and his clear-board still reaches everyone and leaves the stored board without a snapshot |
| Scenarios.SwitchLeavesStaleSession | Backend/server.js:356-364 | a socket that joins a second board and then disconnects leaves only the second board's set. Its id stays in the first board's set |
| Scenarios.SaveAfterRemoteClear | Frontend/src/components/Whiteboard.jsx:406-420 | the save scheduled before a received board-cleared appends to the history captured at mouse-up. The cleared snapshot comes back and can be reached by undo |

## Findings

| source | as written | input that shows it | evidently intended | confidence | as-written member | corrected member |
|---|---|---|---|---|---|---|
| Frontend/src/components/Whiteboard.jsx:400-403 | handleRemoteDraw draws every freehand tool as a painted line of the received size, and only the alpha depends on the tool | a participant drags the eraser with size 5. The sender erases a 20-pixel band. Every other participant paints an opaque 5-pixel line in the sender's join colour until the next snapshot arrives | the others draw each freehand segment the way the sender drew it, the eraser erasing at four times the size and the highlighter at three times the size; the colour stays the sender's join colour, which the server stamps on every relayed draw | likely; not executed | Tools.EraserPaintsRemotely | Tools.StrokeRendersAlike |

## Left out

- Storage, routing and transport are abstracted. MongoDB, Express, CORS and rate limiting become in-memory maps. Each awaited call is one atomic step. The failures of the user writes, the board lookup in join-board, the active-user query and the sweep's delete are `bool` parameters. The failure of the board reads and writes in the join route is the `stored` flag, and the failure of save-canvas's and clear-board's board writes is their `stored` flag.
- Handlers that interleave while one of them awaits are left out. That is concurrency, and each handler here is a sequential step.
- socket.io room membership is modelled by the per-board session sets. A socket that switched boards and then disconnected stays in the first board's set (see `Scenarios.SwitchLeavesStaleSession`). socket.io itself would deliver nothing more to it.
- The heartbeat and sweep intervals and the 500 ms save timer are not modelled as timers. Time is a `now` parameter, and the timer's firing is the `SaveFires` operation.
- The random colour choice is left out; a palette index stands for it.
- The store's schema defaults and enum validation on upsert are left out. A role is stored as given.
- The order of the users-update list is left out: it is a map from username to entry.
- The rest of the REST API is not part of this model: the health route, the board lookup route and the users route. The users route's filter is the same as `Presence.ActiveNames`.
- The canvas is not modelled: painting, the geometry in drawShape, image loading and toDataURL. A snapshot is an opaque string, and a render records only the kind of mark and its stroke parameters.
- Coordinates are modelled as integers. Browsers report them as fractional numbers.
- Unicode case mapping and the full JavaScript `\s` set are left out. Letters are lower-cased over ASCII `A`-`Z`, and whitespace is the six ASCII whitespace characters.
- The toolbar setters for tool, colour, size and fill, and the admin panel, header, status bar, login screen and socket context, are not part of this model. The whiteboard's fields stand for the values they set.
- The joined-board, canvas-updated, users-update and user-joined listeners in the browser are not modelled. They change only the drawn image, the list on screen or the console. The browser has no role-changed listener, so a page keeps the role it logged in with.
