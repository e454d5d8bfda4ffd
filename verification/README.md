# Collaborative whiteboard: rooms, presence and strokes in Dafny

This project models the core of a collaborative whiteboard:

- **Server, room routes.** `POST /join` validates a room id and finds or creates the room. `GET /:roomId` looks a room up.
- **Server, socket handlers.** `join-room`, `leave-room` and `disconnect` keep the in-memory membership table `roomsMeta`. They send `presence-update` messages to socket.io rooms.
- **Client, room-join form.** It validates the typed id, posts it and navigates to the room.
- **Client, drawing canvas.** It rebuilds other users' strokes from live events and from a stored drawing log. A pointer state machine draws and announces the local stroke.
- **Client, cursor overlay.** It hides stale cursors and colours the rest by position.

Modules, one per source file plus three shared ones:

| module | file | models |
|---|---|---|
| `Common` | common.dfy | identifiers, points, an optional value and JavaScript truthiness of a string field |
| `JsStrings` | js_strings.dfy | `String.prototype.trim` (ECMAScript white space and line terminators) and an anchored `^[a-zA-Z0-9]{lo,hi}$` matcher |
| `RoomModel` | room_model.dfy | the stored room record and its drawing commands (`Server/models/Room.js`) |
| `RoomRoutes` | room_routes.dfy | the validator, find-or-create as a value function, and a `RoomStore` class whose methods mirror the two routes |
| `RoomJoin` | room_join.dfy | `handleJoinRoom` as the list of effects it causes |
| `SocketServer` | socket_server.dfy | the `Hub` class: `roomsMeta`, socket.io's room membership, the room store and an outbox of emitted messages; its handlers are proved against value functions of the table |
| `DrawingCanvas` | drawing_canvas.dfy | the stroke rules (`Step`, `Run`), the `Canvas` class with the live handlers, the replay loop and the pointer handlers |
| `UserCursors` | user_cursors.dfy | the staleness filter and the palette assignment |

What the server code does, and does not do:

- The server has no handler for drawing events or cursor moves. It never appends to a room's drawing log and never sends the log on join.
- A presence update carries both the member count and the full users object.
- A socket that leaves an existing room it is not in leaves the table unchanged, but the room still receives a presence update with the unchanged count.
- The socket handlers have no separate missing-room-id error. A room id that finds no room gets "Room not found".

## Model

| member | source | states |
|---|---|---|
| JsStrings.TrimStart | Server/routes/room.routes.js:9 | the result is a suffix of the input, starts with a non-space, and everything cut off is white space |
| JsStrings.TrimEnd | Server/routes/room.routes.js:9 | the result is a prefix of the input, ends with a non-space, and everything cut off is white space |
| JsStrings.Trim | Server/routes/room.routes.js:9 | the result neither starts nor ends with white space, and the input is the result padded on both sides by white space only |
| JsStrings.TrimOfTrimmed | Client/src/components/RoomJoin.jsx:9 | trimming a string with no white space at either end returns it unchanged |
| JsStrings.TrimIdempotent | Client/src/components/RoomJoin.jsx:9 | trimming twice is trimming once |
| JsStrings.MatchAlnumRepeatIff | Server/routes/room.routes.js:10-14 | the anchored pattern `[a-zA-Z0-9]{lo,hi}` matches exactly the all-alphanumeric strings of length lo to hi |
| RoomRoutes.ValidateJoin | Server/routes/room.routes.js:7-17 | a missing or empty id gives 400 "roomId required"; otherwise the id is accepted exactly when its trimmed form has 6 to 8 characters, all alphanumeric, else 400 "invalid roomId"; an accepted id is the untrimmed input |
| RoomRoutes.JoinOutcome | Server/routes/room.routes.js:6-17 | the join fails with 400 exactly when validation rejects the body, and then the store is unchanged and the response is the validator's |
| RoomRoutes.FindOrCreate | Server/routes/room.routes.js:18-33 | an accepted join adds the untrimmed id if absent, as a room with an empty log and both times from the clock, leaves every existing room unchanged, and answers 200 with the stored room's id and times |
| RoomRoutes.JoinKeepsWellKeyed | Server/routes/room.routes.js:18-27 | every room stays stored under its own, non-empty id |
| RoomRoutes.JoinIdempotent | Server/routes/room.routes.js:18-27 | joining the same id twice leaves the store as one join did, whatever times the second join reads |
| RoomRoutes.UntrimmedIdIsStored | Server/routes/room.routes.js:9-21 | " abc123" passes validation and is stored under " abc123", not under "abc123" |
| RoomRoutes.RoomStore.Join | Server/routes/room.routes.js:6-33 | the handler's new store and response are those `JoinOutcome` gives for the old store |
| RoomRoutes.RoomStore.Get | Server/routes/room.routes.js:35-39 | 404 "not found" exactly when the id is not stored, without validating it; otherwise 200 with the full room record; the store is unchanged |
| RoomJoin.HandleJoinRoom | Client/src/components/RoomJoin.jsx:8-40 | an id whose trim fails the check causes only the alert, before any request; otherwise the first of two effects is the request carrying the trimmed id |
| RoomJoin.NavigatesAfterAnyAnswer | Client/src/components/RoomJoin.jsx:21-40 | the app navigates to "/room/" + trimmed id exactly when the id passed and the server answered, ok or not; a failed request alerts instead |
| RoomJoin.ClientRuleIsServerRule | Client/src/components/RoomJoin.jsx:10-15 | the client's checks with the `{3,20}` pattern accept exactly the ids the server's `{6,8}` rule accepts |
| RoomJoin.ClientAndServerAgree | Client/src/components/RoomJoin.jsx:9-24 | the client sends a request exactly when the server would accept the typed id, and the server accepts the trimmed id it receives unchanged |
| RoomJoin.NavigationTargetIsStored | Client/src/components/RoomJoin.jsx:21-33 | after a request the server answered with ok, the room the client navigates to exists in the store under exactly that id |
| SocketServer.JoinKeepsInv | Server/socket/socket.js:32-34 | a join into a stored room keeps every entry non-empty and every colour "#000", keeps socket.io's rooms equal to the table, and re-joining changes nothing |
| SocketServer.LeaveKeepsInv | Server/socket/socket.js:43-56 | a leave keeps the invariant, and leaving the socket.io room a second time changes nothing |
| SocketServer.NonMemberLeave | Server/socket/socket.js:43-53 | a socket not in an existing room leaving it changes no entry, and the room still receives its unchanged count |
| SocketServer.LeaveManyIsAfterLeaving | Server/socket/socket.js:71-75 | leaving a list of rooms one after another touches only those rooms: each loses the socket, and an entry left empty disappears |
| SocketServer.LeavingEveryRoomRemovesSocket | Server/socket/socket.js:71-75 | leaving exactly the socket's rooms takes it out of every entry and deletes exactly the rooms it was alone in |
| SocketServer.LeavingKeepsOtherSockets | Server/socket/socket.js:42-75 | every other socket keeps exactly its memberships and colours, whatever rooms the socket leaves |
| SocketServer.NotYetLeft | Server/socket/socket.js:71-73 | a room the loop has not visited yet is unchanged, and no entry has become empty |
| SocketServer.DisconnectProgressStep | Server/socket/socket.js:71-75 | visiting one more entry, and leaving it exactly when the socket is a member, keeps each room visited once and every member room covered |
| SocketServer.DisconnectStep | Server/socket/socket.js:69-75 | one turn of the disconnect loop adds one leave to the table and one update, addressed to the room's remaining users |
| SocketServer.DisconnectKeepsInv | Server/socket/socket.js:69-75 | removing the socket from every room on both sides keeps the invariant, and the socket is in no socket.io room |
| SocketServer.Hub.constructor | Server/socket/socket.js:9 | the table, socket.io's rooms and the outbox start empty |
| SocketServer.Hub.RoomCreated | Server/routes/room.routes.js:18-27 | a room the join route saves while the server runs becomes joinable; the table, socket.io's rooms and the outbox are unchanged and the invariant is kept |
| SocketServer.Hub.JoinRoom | Server/socket/socket.js:26-40 | an unknown room sends "Room not found" to the joiner only and changes nothing; otherwise the socket is recorded with "#000", joins the socket.io room, re-joining leaves the table unchanged, and the whole room, joiner included, receives the count and users of the new entry |
| SocketServer.Hub.LeaveRoom | Server/socket/socket.js:42-58 | a falsy or unknown room changes nothing; otherwise only this socket leaves this room, an emptied entry is deleted without an update, else the room's socket.io audience receives the new count |
| SocketServer.Hub.LeaveRoomRequest | Server/socket/socket.js:60-67 | always acknowledges "ok"; afterwards the socket is in neither the entry nor the socket.io room; a non-member leaving still sends the unchanged count; the invariant is kept |
| SocketServer.Hub.Disconnect | Server/socket/socket.js:69-76 | the loop leaves exactly the rooms the socket was in, each once; the socket is then in no entry and no socket.io room; entries it was alone in are gone; the updates sent are those of the leaves in visiting order, each to the remaining users |
| SocketServer.JoinAsWritten | Server/socket/socket.js:33-34 | as written, a fresh id creates an entry holding the joiner, and the handler throws exactly when the id names an inherited method |
| SocketServer.DisconnectAsWritten | Server/socket/socket.js:71-75 | as written, the loop over a table holding only room entries always completes; it can throw only on an inherited method stored as an entry |
| SocketServer.PrototypeRoomIdBreaksJoin | Server/socket/socket.js:33-34 | "toString" passes the route's validator; joining it stores the inherited method and throws, and a later disconnect that meets it first throws and leaves the socket in the rooms after it |
| DrawingCanvas.Step | Client/src/components/DrawingCanvas.jsx:19-52 | a start (re)opens that socket's stroke; a move with no open stroke does nothing; a move on an open stroke paints one segment from its last point in its colour, width and alpha and moves the last point; an end deletes only that stroke; a clear wipes the canvas and keeps the strokes; other sockets' strokes never change |
| DrawingCanvas.RunAppend | Client/src/components/DrawingCanvas.jsx:76-103 | running two event lists one after the other equals running their concatenation |
| DrawingCanvas.RunIgnoresOthers | Client/src/components/DrawingCanvas.jsx:44-46 | events about other sockets, or clears, leave a socket's open stroke, or its absence, exactly as it was |
| DrawingCanvas.StrokeIsChain | Client/src/components/DrawingCanvas.jsx:28-42 | consecutive segments of a stroke are connected, across any events about other sockets: the next segment starts where the previous one ended |
| DrawingCanvas.ClearKeepsOpenStrokes | Client/src/components/DrawingCanvas.jsx:48-52 | after a clear, a stroke continues from the point it reached before the clear |
| DrawingCanvas.StartOverwritesStroke | Client/src/components/DrawingCanvas.jsx:19-26 | a start replaces any unfinished stroke of its socket: the next move paints from the new point in the new colour, width and alpha |
| DrawingCanvas.EndThenMoveDrawsNothing | Client/src/components/DrawingCanvas.jsx:44-46 | after an end, a move of the same socket paints nothing, and only that socket's stroke is gone |
| DrawingCanvas.Canvas.constructor | Client/src/components/DrawingCanvas.jsx:11-14 | the canvas starts blank, not drawing, with no last point and no open remote strokes |
| DrawingCanvas.Canvas.OnDrawStart | Client/src/components/DrawingCanvas.jsx:19-26 | the handler's new strokes and marks are those `Step` gives for a start |
| DrawingCanvas.Canvas.OnDrawMove | Client/src/components/DrawingCanvas.jsx:28-42 | the handler's new strokes and marks are those `Step` gives for a move |
| DrawingCanvas.Canvas.OnDrawEnd | Client/src/components/DrawingCanvas.jsx:44-46 | the handler's new strokes and marks are those `Step` gives for an end |
| DrawingCanvas.Canvas.OnClearCanvas | Client/src/components/DrawingCanvas.jsx:48-52 | the handler's new strokes and marks are those `Step` gives for a clear |
| DrawingCanvas.Canvas.OnClearSignal | Client/src/components/DrawingCanvas.jsx:62-68 | a true signal wipes the canvas and a false one does nothing |
| DrawingCanvas.Canvas.Replay | Client/src/components/DrawingCanvas.jsx:70-104 | a null or empty log changes nothing, not even a clear; otherwise the canvas is wiped and then painted exactly as `Run` paints the decoded log from no open strokes, and the live strokes are untouched |
| DrawingCanvas.Canvas.PointerDown | Client/src/components/DrawingCanvas.jsx:118-131 | drawing starts at the pointer, and a connected client announces the start with the current colour, width and tool |
| DrawingCanvas.Canvas.PointerMove | Client/src/components/DrawingCanvas.jsx:133-162 | when not drawing nothing happens; while drawing, one segment from the last point is painted, the last point moves, and a connected client sends the move and then the cursor position |
| DrawingCanvas.Canvas.PointerUp | Client/src/components/DrawingCanvas.jsx:164-170 | drawing stops, the last point is cleared, and a connected client announces the end |
| DrawingCanvas.Canvas.MouseMove | Client/src/components/DrawingCanvas.jsx:172-192 | a connected client sends exactly one cursor position per move, and a stroke move only while drawing |
| UserCursors.Filter | Client/src/components/UserCursors.jsx:49-52 | keeps exactly the entries seen less than 5000 ms ago, in their original order; entries with distinct keys, as a map's are, stay distinct |
| UserCursors.Markers | Client/src/components/UserCursors.jsx:69-93 | the i-th marker is keyed by the i-th cursor's socket id, sits at its position, and has palette colour `i % 8` |
| UserCursors.ShownColoursArePalette | Client/src/components/UserCursors.jsx:3-12 | every shown marker, the last one and a lone one included, has a palette colour |
| UserCursors.PaletteByPosition | Client/src/components/UserCursors.jsx:3-12 | of two shown markers, the earlier has a palette colour, and two shown cursors fewer than eight places apart never share one |
| UserCursors.RenderShowsFreshCursors | Client/src/components/UserCursors.jsx:49-75 | the overlay shows exactly the fresh cursors, in the map's order, with one marker per distinct socket id |
| UserCursors.NoMapNoMarkers | Client/src/components/UserCursors.jsx:50 | a null or undefined cursor map shows nothing |
| UserCursors.StalenessBoundary | Client/src/components/UserCursors.jsx:51 | a cursor exactly 5000 ms old is hidden; one 4999 ms old is shown in the first colour |
| UserCursors.ColourShiftsWhenEarlierExpires | Client/src/components/UserCursors.jsx:85 | in a two-cursor overlay, when the earlier cursor goes stale, the later one's colour changes from the second palette colour to the first |

Definitions the contracts above are stated in, and the source they stand for:

- `JsStrings.MatchAlnumRepeat`: the regular expression `test` of Server/routes/room.routes.js:10-14 and Client/src/components/RoomJoin.jsx:10-15.
- `RoomJoin.ClientAccepts`: the client's condition, Client/src/components/RoomJoin.jsx:10-15.
- `SocketServer.JoinTable`, `SocketServer.LeaveTable` and `SocketServer.LeaveEmits`: the table updates and emits of Server/socket/socket.js:33-39 and 43-54.
- `SocketServer.Lookup`: a property read on the plain object `roomsMeta`, Server/socket/socket.js:33 and 72.
- `DrawingCanvas.AlphaTenths`: the alpha choice of Client/src/components/DrawingCanvas.jsx:36, 93 and 141.
- `DrawingCanvas.Decode`: the `cmd.type` dispatch of Client/src/components/DrawingCanvas.jsx:77-102.
- `DrawingCanvas.Run`: the replay `forEach` of Client/src/components/DrawingCanvas.jsx:76-103, and the live handlers applied in turn (lines 19-52).
- `UserCursors.Visible` and `UserCursors.Render`: the filter and the marker list of Client/src/components/UserCursors.jsx:49-52 and 69-93.

## Left out

- Network, database and socket I/O. The room store is a map or set, emitted messages are appended to an outbox, and the fetch result is a parameter. Every `await` is treated as atomic, so interleavings of concurrent handlers are not modelled.
- Clocks. The two `new Date()` readings of room creation, `Date.now()` in the cursor overlay and cursor `lastSeen` times are integer parameters.
- Floating point. `getPointer` scaling and the overlay's pixel scaling are not modelled; points are integer pairs. The alpha is kept in tenths: 7 for the pencil, 10 otherwise.
- Canvas 2D calls. The canvas is the sequence of segments and clears painted on it. Line cap and join are not modelled.
- React's asynchronous state updates. Each handler runs against the current state.
- DOM rect tracking in the cursor overlay, `Server/index.js`, `Client/src/App.jsx`, `Client/src/components/Toolbar.jsx` and `Client/src/components/Whiteboard.jsx`. None of these is part of this model.
- Request bodies whose `roomId` is not a string, and a `join-room` payload without `roomId`. What `Room.findOne` does with an undefined id depends on the database driver, which is not part of this model.
- Payload fields the server ignores: the colour, width and tool sent with `join-room`.
- Cursor entries whose `lastSeen` is missing. JavaScript compares those as NaN, which hides them; the model's times are always integers.
- SocketServer.Hub.Disconnect: the order in which `for...in` visits the entries of `roomsMeta` is left open. The visiting order is returned as `left`, and every property holds for any order.
- SocketServer.Hub: `roomsMeta` is a map with no inherited keys. This is the corrected behaviour; the plain object as written is modelled separately (see Findings).
- DrawingCanvas: stroke tables (`remoteStrokes.current`, `tempStrokes`) are plain objects too, but their keys are server-assigned socket ids, which never name an Object.prototype member.
- DrawingCanvas.Canvas.MouseMove: also stands for `handleTouchMove`, which has the same body.

## Findings

| source | as written | input that shows it | evidently intended | confidence | as-written member | corrected member |
|---|---|---|---|---|---|---|
| Server/socket/socket.js:33-34 | `roomsMeta` is a plain object, so `roomsMeta[roomId] \|\| { users: {} }` finds the inherited method for a room id that names an Object.prototype member; the handler stores the method and throws on `.users[socket.id]`; the handler is async, so the throw is an unhandled rejection, which under Node's default mode since version 15 ends the server process | `POST /join` with roomId "toString" (or "valueOf"), then `join-room` with that id | every room id the route accepts gets its own entry holding the joiner | not executed | SocketServer.JoinAsWritten | SocketServer.Hub.JoinRoom |
| Server/socket/socket.js:71-73 | once such an entry exists, the `disconnect` loop reads `.users[socket.id]` of the stored method and throws, so the rooms enumerated after it keep the disconnected socket | the entry above, in a process that survives the join's unhandled rejection (Node before 15, or a non-default rejection mode), then a disconnect of a socket that is in a room enumerated after it | a disconnect takes the socket out of every room | not executed | SocketServer.DisconnectAsWritten | SocketServer.Hub.Disconnect |
