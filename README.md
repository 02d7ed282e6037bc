# Live Code Collab: room hub and clients

This project models the live session logic of Live-Code-Collab, a shared code editor with a whiteboard. It is written in Dafny.

- **The room hub** (`backend/main.py`) keeps a table from room id to an ordered member list. It also keeps usernames, an admin per room and a `{code, language}` document per room.
  - A connection to an absent room is admitted only if its first message is `create`.
  - `join` records the name, sends the presence list to every member and `init` to the joiner.
  - `code` and `language` messages overwrite one field of the room document.
  - Every other message is forwarded verbatim to the other members.
  - A disconnect removes the member and resends the presence list.
- **The collaborative client** (`frontend/src/App.jsx`) has:
  - an infinite canvas view: a scale and an offset, zoom about the cursor, pan and reset;
  - a shape log with a redo stack whose head is index 0;
  - drawing tools driven by mouse-down, mouse-move and mouse-up;
  - the reducer for messages from the hub;
  - a Monaco editor mirror guarded by the `isRemote` flag;
  - a chat panel.
- **The legacy editor page** (`frontend/src/Editor.jsx`) has:
  - a reducer that normalises chat with `||` fallbacks;
  - output handling;
  - untyped document updates;
  - its own `isRemote` gate, `toggleChat` and `sendChat`.

## How it is modelled

- `Json` models decoded JSON values, plus JavaScript truthiness and `||`. `Null` also stands for a missing key.
- `JsText` models `String.prototype.trim`, with the white-space set of ECMA-262, sections 12.2 and 12.3. It proves that `s.trim()` is empty exactly when `s` is all white space.
- `ViewTransform` holds the pure canvas maths over exact reals:
  - `ToWorld` is the inverse of the rendering transform;
  - zoom keeps the world point under the cursor fixed;
  - pan keeps the grabbed point under the mouse.
- `Whiteboard` has three parts:
  - Pure functions on a generic `Board` (log and redo stack), with closed forms for k undos and k redos, and the proof that k undos followed by k redos restore the board.
  - The remote board reducer `ApplyRemote` and `Replay`.
  - The `Client` class. Its fields are the React state and the refs of `App.jsx`. Each handler is a method with a field-granular `modifies` clause.
    - Every message the client sends is appended to `sent`.
    - Every board-changing method ensures `InStep`: the client's new log equals what a receiver holding the old log reaches by applying the messages just sent.
- `LegacyEditor` models the `Page` class of `Editor.jsx` and the pure chat normalisation.
- `RoomHub` models the `Hub` class over map fields. Sockets are natural numbers, and every `send_text` or `close` is appended to `out`.
  - Each method is one stretch of the handler between two awaits. The handshake is therefore split into `Accept` and `Handshake`.
  - The ghost fields `seen` and `admitted` carry the invariant `Valid`, which every method preserves:
    - the rooms, admins and room documents have the same keys;
    - every member list has no repeats;
    - every member list holds only sockets admitted to that room;
    - every live handler serves an existing room it was admitted to.
  - `Fanout` is the reference definition of a `for ws in rooms[room_id]` send loop. `Hub.Deliver` is the loop itself, proved equal to it.
  - Lemmas show that a fan-out:
    - reaches each member except the skipped one exactly as often as it occurs in the list;
    - reaches them in list order;
    - never reaches the skipped member.
  - `ConcurrentCreates` shows the handshake race. Two connections open concurrently to the same absent room, and both send `create`. The second `rooms[room_id] = []` resets the member list, so the first creator, whose handler is still live, is no longer a member.

Notes on the code as written:
- In `backend/main.py`, a `join` message without `username` raises `KeyError` at line 48. The exception is not `WebSocketDisconnect`, so it ends the handler without removing the socket from its room. `Hub.Receive` models this: the socket stays a member but has no live handler.
- App.jsx's `socket.onmessage` captures `username` and `chatOpen` when the connection opens. Editor.jsx's captures `chatOpen`, and its change listener captures `language` at mount. These are explicit parameters (`seenName`, `seenChatOpen`) or a captured field (`Page.mountLanguage`).
- Both pages build that handler in `connectSocket`, which the click handlers call in the same render as `setUsername(nameInput)` (App.jsx:389-395 and 423-427, Editor.jsx:95-108). So in the running app the captured name is always `""` and the captured chat-open flag is always `false`. App.jsx's self-filter `data.user !== username` therefore drops no chat from a named user, and `unread` grows even while the chat panel is open. The model keeps these as parameters, so its contracts cover those values and every other.
- In `backend/main.py`, a frame that is JSON but not an object (for example `[]`) makes `msg.get` raise `AttributeError`. During the handshake the bare `except` at line 36 swallows it, so the handshake ends silently, as with a dropped connection (`Handshake(ws, None)`). In the receive loop it escapes past `except WebSocketDisconnect`, as the missing-`username` case does, ending the handler while the socket stays a member.

## Model

| member | source | states |
|---|---|---|
| Json.Or | frontend/src/Editor.jsx:71-73 | `a \|\| b` is `a` when `a` is truthy and `b` otherwise; the result is truthy iff either operand is |
| JsText.TrimStart | frontend/src/App.jsx:334 | the result is a suffix of the input that does not start with white space, and only white space was dropped |
| JsText.TrimEnd | frontend/src/App.jsx:334 | the result is a prefix of the input that does not end with white space, and only white space was dropped |
| JsText.Trim | frontend/src/App.jsx:334 | `s.trim()` is a slice of `s`, and everything cut off before and after it is white space |
| JsText.TrimEdges | frontend/src/Editor.jsx:162 | `s.trim()` is empty or starts and ends with a character that is not white space |
| JsText.TrimEmptyIffBlank | frontend/src/Editor.jsx:162 | `s.trim()` is empty exactly when every character of `s` is white space |
| JsText.IsBlank | frontend/src/App.jsx:334 | the `!chatInput.trim()` test holds iff the input is all white space |
| ViewTransform.ToWorld | frontend/src/App.jsx:49-52 | for a positive scale, rendering the converted point (`world * scale + offset`) gives back the screen point |
| ViewTransform.WorldRoundTrip | frontend/src/App.jsx:49-52 | for a positive scale, converting a rendered world point back gives the world point |
| ViewTransform.ClampScale | frontend/src/App.jsx:58 | the clamped scale lies in [0.1, 5]; it equals the input inside the range and the nearer bound outside it |
| ViewTransform.Zoom | frontend/src/App.jsx:57-68 | the new scale is the clamped product, so it lies in [0.1, 5]; the world point under the mouse is the same before and after |
| ViewTransform.Pan | frontend/src/App.jsx:246-253 | the scale is unchanged and every world point moves on screen by exactly the mouse delta |
| ViewTransform.PanKeepsGrabbedPoint | frontend/src/App.jsx:246-253 | the world point under the previous mouse position is under the new mouse position after the pan |
| Whiteboard.ToolKinds | frontend/src/App.jsx:588-596 | of the toolbar's seven tools, `select` is exactly the one that neither draws freehand (`pen`, `eraser`, App.jsx:259) nor is a shape tool (`line`, `rect`, `circle`, `triangle`, App.jsx:279), and no tool is both |
| Whiteboard.ShapeMsg | frontend/src/App.jsx:260-268 | a segment or shape a tool emits is a `draw` message |
| Whiteboard.UndoStep | frontend/src/App.jsx:153-160 | on an empty log nothing changes; otherwise exactly the last shape leaves the log and goes to the front of the redo stack |
| Whiteboard.RedoStep | frontend/src/App.jsx:162-168 | on an empty redo stack nothing changes; otherwise the head of the stack is appended to the log and removed from the stack |
| Whiteboard.UndoTimesTakesSuffix | frontend/src/App.jsx:153-160 | k undos remove the last k shapes, and the redo stack then starts with those k shapes in log order |
| Whiteboard.RedoTimesTakesPrefix | frontend/src/App.jsx:162-168 | k redos append the first k redo entries to the log, in order, and leave the rest of the stack |
| Whiteboard.UndoThenRedo | frontend/src/App.jsx:153-168 | k undos followed by k redos restore the log and the redo stack exactly, order included |
| Whiteboard.ApplyRemote | frontend/src/App.jsx:184-196 | `draw` appends the message as it arrived; `undo` drops exactly the last shape, or nothing on an empty log, and keeps the redo stack; `clear_board` empties the log and the redo stack; any other message leaves the board |
| Whiteboard.Replay | frontend/src/App.jsx:184-187 | a receiver applying a run of `draw` messages in order ends with its log followed by exactly those shapes |
| Whiteboard.ReplayConcat | frontend/src/App.jsx:184-196 | a receiver applying two runs of messages one after the other reaches the same log as applying them together |
| Whiteboard.InStepOne | frontend/src/App.jsx:184-196 | a change to the log that matches how the remote reducer applies a sent message keeps sender and receiver in step |
| Whiteboard.InStepIgnored | frontend/src/App.jsx:184-196 | sending a message that is not `draw`, `undo` or `clear_board` keeps an unchanged log in step |
| Whiteboard.InStepTrans | frontend/src/App.jsx:184-196 | two in-step actions in a row are one in-step action |
| Whiteboard.LocalBoardActionsMatchRemote | frontend/src/App.jsx:153-196 | on a non-empty log, the remote `undo` does what a local undo does; on a non-empty redo stack, the remote reducer applied to the redo head does what a local redo does; the remote `clear_board` empties both |
| Whiteboard.Client.constructor | frontend/src/App.jsx:5-46 | a new client has an empty board, the home view, the pen in `#020617`, no editor, the language `python`, an empty chat and nothing sent |
| Whiteboard.Client.Wheel | frontend/src/App.jsx:55-69 | the view becomes the zoom of the old view about the mouse; the world point under the mouse is unchanged and the scale stays in range |
| Whiteboard.Client.ResetView | frontend/src/App.jsx:653-656 | the view becomes scale 1 and offset (0, 0) |
| Whiteboard.Client.SelectTool | frontend/src/App.jsx:600-601 | the tool becomes the one chosen |
| Whiteboard.Client.MouseDown | frontend/src/App.jsx:223-239 | `select` starts a pan at the mouse and keeps the redo stack; any other tool clears the redo stack and starts drawing at the world point under the mouse |
| Whiteboard.Client.MouseMove | frontend/src/App.jsx:241-273 | while panning, the view is panned by the mouse delta and nothing is sent; while drawing with pen or eraser, one segment from the previous point to the world point under the mouse is added and sent; otherwise the log and outbox are unchanged; the log stays in step with what was sent |
| Whiteboard.Client.MouseUp | frontend/src/App.jsx:275-296 | a shape tool that was drawing adds and sends one shape from the mouse-down point to the world point under the mouse; drawing and panning stop; the log stays in step with what was sent |
| Whiteboard.Client.MouseOut | frontend/src/App.jsx:666 | drawing stops |
| Whiteboard.Client.Undo | frontend/src/App.jsx:153-160 | the board moves by `UndoStep`; one `undo` is sent exactly when the log was non-empty; the log stays in step |
| Whiteboard.Client.Redo | frontend/src/App.jsx:162-168 | the board moves by `RedoStep`; the redo head is sent exactly when the stack was non-empty; the log stays in step |
| Whiteboard.Client.ClearBoard | frontend/src/App.jsx:298-302 | the log and the redo stack become empty and one `clear_board` is sent; the log stays in step |
| Whiteboard.Client.ContentChanged | frontend/src/App.jsx:324-330 | the change listener sends the whole text as a `code` message exactly when `isRemote` is down |
| Whiteboard.Client.SetEditorValue | frontend/src/App.jsx:324-330 | `setValue` replaces the text and fires the change listener |
| Whiteboard.Client.RemoteReplace | frontend/src/App.jsx:197-203 | the remote text replaces the editor text, nothing is sent back, and `isRemote` is down afterwards |
| Whiteboard.Client.HandleMount | frontend/src/App.jsx:321-331 | the editor is mounted |
| Whiteboard.Client.LocalEdit | frontend/src/App.jsx:324-330 | every local edit sends exactly one `code` message with the new text, and leaves the board in step |
| Whiteboard.Client.SetChatInput | frontend/src/App.jsx:510 | the chat input becomes the typed text |
| Whiteboard.Client.SendChatMessage | frontend/src/App.jsx:333-347 | blank input changes nothing; otherwise one chat message carrying the user, text and time is sent and also stored locally, and the input is cleared |
| Whiteboard.Client.ToggleChat | frontend/src/App.jsx:349-352 | the chat-open flag flips and the unread count becomes 0 |
| Whiteboard.Client.OnMessage | frontend/src/App.jsx:178-220 | never sends. The board moves by the remote reducer. `users` sets the list. `code` replaces the text of a mounted editor. `language` sets the language. `terminate` reloads. A chat from another user is appended, and counted as unread when the chat was closed. Everything else stays |
| Whiteboard.DrawRectangle | frontend/src/App.jsx:223-296 | a rectangle drag from (10, 10) to (50, 40) at the home view logs and sends exactly that one shape |
| Whiteboard.RectangleReachesPeer | frontend/src/App.jsx:184-187 | the rectangle drawn above arrives at a fresh peer as its only shape |
| LegacyEditor.NormaliseChat | frontend/src/Editor.jsx:69-74 | the author is the first truthy of `user` and `username`, else "User"; the text is the first truthy of `text` and `message`, else ""; the time is `time` if truthy, else "" |
| LegacyEditor.SentChatReadsAsAnonymous | frontend/src/Editor.jsx:161-175 | a chat sent by this page shows as authored by "User" on another legacy page, with the sent text and time |
| LegacyEditor.Page.constructor | frontend/src/Editor.jsx:18-31 | a new page has no users, no output, no chat, the language `python` and nothing sent |
| LegacyEditor.Page.ContentChanged | frontend/src/Editor.jsx:114-123 | the listener sends `{code, language}` with the captured language exactly when `isRemote` is down |
| LegacyEditor.Page.SetEditorValue | frontend/src/Editor.jsx:86-90 | `setValue` replaces the text and fires the change listener |
| LegacyEditor.Page.RemoteReplace | frontend/src/Editor.jsx:86-90 | the remote code replaces the editor text, nothing is sent back, and `isRemote` is down afterwards |
| LegacyEditor.Page.HandleMount | frontend/src/Editor.jsx:111-124 | the editor is mounted, and the listener captures the current language |
| LegacyEditor.Page.LocalEdit | frontend/src/Editor.jsx:114-123 | a local edit sends exactly one document message with the new text |
| LegacyEditor.Page.SetChatInput | frontend/src/Editor.jsx:312 | the chat input becomes the typed text |
| LegacyEditor.Page.ToggleChat | frontend/src/Editor.jsx:126-129 | the chat-open flag flips and the unread count becomes 0 |
| LegacyEditor.Page.SendChat | frontend/src/Editor.jsx:161-175 | blank input changes nothing; otherwise one chat message is sent, no local copy is kept, and the input is cleared |
| LegacyEditor.Page.OnMessage | frontend/src/Editor.jsx:48-91 | never sends. `users` sets the list. `terminate` shows the toast and schedules a reload. `output` sets the output, and sets time and status only when truthy. `chat` appends the normalised entry with no self-filter, and counts it as unread when the chat was closed. Any other message, untyped or `init` included, is a document update. Fields a branch does not touch stay |
| LegacyEditor.Page.DocumentChanged | frontend/src/Editor.jsx:84-90 | a truthy language replaces the language; a non-empty string code replaces the text of a mounted editor without echoing it |
| RoomHub.Fanout | backend/main.py:58-60 | a fan-out has no more sends than the member list has entries (one per entry, none for the skipped socket) |
| RoomHub.FanoutSendsToMembers | backend/main.py:58-60 | every send of a fan-out carries the message, goes to a member and not to the skipped socket |
| RoomHub.FanoutSnoc | backend/main.py:58-60 | one more member adds exactly one send to it, or none if it is the skipped socket |
| RoomHub.FanoutCount | backend/main.py:58-60 | each socket receives as many sends as it occurs in the member list, and the skipped socket receives none |
| RoomHub.FanoutCounts | backend/main.py:58-60 | `FanoutCount`, for all sockets at once |
| RoomHub.FanoutInOrder | backend/main.py:58-60 | the recipients are a subsequence of the member list, so sends follow member order |
| RoomHub.FanoutOncePerMember | backend/main.py:58-60 | with distinct members, every member other than the skipped socket gets exactly one send |
| RoomHub.DistinctCountsOne | backend/main.py:39 | a socket in a list without repeats occurs in it once |
| RoomHub.RemoveFirst | backend/main.py:63-64 | the list shrinks by one exactly when the socket was in it, and is unchanged otherwise |
| RoomHub.RemoveFirstContents | backend/main.py:63-64 | removal takes exactly one copy of the socket out of the member multiset and keeps the others in order |
| RoomHub.RemoveFirstDistinct | backend/main.py:63-64 | in a list without repeats, the removed socket is gone and the rest has no repeats |
| RoomHub.UsersList | backend/main.py:68 | one entry per member in member order: its username (`usernames.get(ws, "User")`), or "User" if it never joined |
| RoomHub.UpdateState | backend/main.py:54-55 | a message of type `code` or `language` overwrites only that field with its value (null when absent); any other type leaves the document |
| RoomHub.AppendNew | backend/main.py:39 | appending a newly admitted socket keeps the member lists free of repeats and admitted |
| RoomHub.CreateNew | backend/main.py:33-39 | a new socket may become the only member of a created room |
| RoomHub.NotAdmittedNotMember | backend/main.py:25-32 | a socket that was never admitted is in no member list |
| RoomHub.RemoveKeepsAdmitted | backend/main.py:63-64 | removal keeps a member list admitted to its room |
| RoomHub.Hub.constructor | backend/main.py:16-19 | the hub starts with no rooms, names, admins or documents |
| RoomHub.Hub.Deliver | backend/main.py:58-60 | the send loop emits exactly the fan-out of the message over the room's members, skipping the sender |
| RoomHub.Hub.BroadcastUsers | backend/main.py:67-70 | every member, the newest included, gets the presence list of the current members |
| RoomHub.Hub.Accept | backend/main.py:23-39 | an existing room gets the socket appended to its list and a live handler; for an absent room the handler waits for the first message |
| RoomHub.Hub.Handshake | backend/main.py:25-37 | only a first message of type `create` admits the socket. Anything else gets one error and a close, admits nothing and leaves the socket in no list. A dropped connection sends nothing and admits nothing. Either way the socket stops waiting, so it can never be admitted later |
| RoomHub.Hub.Create | backend/main.py:33-39 | only a socket still waiting on its first message can create; it becomes the admin and only member of the room it asked for; the document starts as code "" and language "cpp"; the handler leaves the wait and goes live |
| RoomHub.Hub.Receive | backend/main.py:41-60 | `join` with a name is `Join`, is not forwarded and changes no document. `join` without a name ends the handler and sends nothing. Any other message updates the document by `UpdateState` and is forwarded verbatim to every other member in member order |
| RoomHub.Hub.Join | backend/main.py:47-52 | records the name, sends the presence list to every member including the joiner, then `init` with the room document to the joiner only |
| RoomHub.Hub.Disconnect | backend/main.py:62-65 | the socket leaves its room's list and the remaining members get the new presence list; names, admins, documents and the room entry stay |
| RoomHub.RefusedStaysOut | backend/main.py:25-32 | a connection to an absent room that opens with `join` gets exactly one error and a close, no longer waits on a handshake, and is in no member list |
| RoomHub.ConcurrentCreates | backend/main.py:25-39 | two connections accepted for the same absent room that both send `create`: afterwards the member list is only the second creator, who is also the admin, while the first creator's handler is still live |
| RoomHub.ForwardSkipsSender | backend/main.py:57-60 | in a room with members [1, 2], a non-`join` message from 1 produces exactly one send, the verbatim frame to 2 |
| RoomHub.TwoMemberRoom | backend/main.py:25-39 | a room created by socket 1 and then joined by socket 2 has members [1, 2] in admission order |

## Left out

- `run_code` and the `/run` endpoint (backend/main.py:72-101), and the clients' `runCode` fetch calls: these are subprocesses, temporary files, wall-clock timing and HTTP.
- WebSocket transport: `accept`, `close`, awaiting, send failures, and JSON parsing and printing. Messages are decoded JSON objects. A frame that is not JSON, or is JSON but not an object, during the handshake is `Handshake(ws, None)`. Such a frame later in the loop is not modelled (it ends the handler, as noted above).
- Interleaving: each hub method is one atomic stretch between awaits. Only the handshake gap, with the race it opens, is modelled. The awaits inside the send loops are not.
- Canvas rendering (`redrawCanvas`), including composite modes, line widths and `Math.sqrt`: this is drawing, not state.
- IEEE floating point and `Math.pow(1.1, -deltaY / 100)`: coordinates are exact reals and the zoom factor is a parameter.
- NaN is not a value of `Json.Val`, so its falsiness is not modelled.
- The JSX markup, React hooks and effects, listener registration, the toast timer, the clipboard, the colour palette and random room ids: these are UI.
- `terminateSession` sends one `terminate` message: this is UI. On receipt, App.jsx reloads (`reloaded`) and Editor.jsx shows a toast and schedules a reload.
- The language selector: outside the reducers, it is UI.
- App.jsx's `!socketRef.current` check in `sendChatMessage`: a socket is always set while handlers can run.
- Sends through `socketRef.current?.` are always delivered to `sent`.
- React state setters are writes that take effect at once. React's deferred and batched updates are not modelled. The pan updater reads `lastMousePos.current` only when it runs (App.jsx:248-252), and `undo` copies the render-time `shapes` before calling `setShapes` (App.jsx:155-158). Both match the model only when each event's updates are applied before the next event.
- Whiteboard.Client.OnMessage: a `code` value that is not a string is ignored, whereas Monaco would receive it.
- LegacyEditor.Page.DocumentChanged: a truthy `code` that is not a string is ignored, whereas Monaco would receive it.
- LegacyEditor.Page.OnMessage: for the same reason, its contract leaves the editor text unchanged for a truthy `code` that is not a string, whereas Monaco would receive it.
- Whiteboard.ShapeMsg: its contract states only that the message is a `draw`. Its coordinates, colour and tool are fixed by its definition, which the client methods' contracts name.
- Editor.jsx's broken references (`view`, `canvasRef`, `clearBoard`, the mouse handlers): they are undefined in that file, so only its handler functions are modelled.
- App.jsx has no `init` handler and ignores the hub's `init` message, and the model does the same. Editor.jsx treats `init` as a document update, which the model follows.
