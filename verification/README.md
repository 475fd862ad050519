# Simulation visualizer client, modelled in Dafny

The system is a browser client for a vehicle simulation server. It probes
the server until it answers, then opens a WebSocket to it. The first frame of
each connection describes the nodes and goes to the initialize callback.
The visualization module's `initializeVisualization` is meant to build a
three-dimensional scene from it: a ground plane and one sphere per node. Every later frame is one of two
kinds. A frame with a `command` key repaints a node, the background or the
node sizes. Any other frame moves the spheres to new positions. When the
connection closes, the scene is torn down and a new connection attempt is
scheduled. A pause button sends one `pause/resume` message, but only while
the socket is open.

The model has six modules:

- `Wrappers` and `Data` (`data.dfy`): the optional value, decoded JSON
  frames, and the record shapes exchanged with the server.
- `Socket` (`socket.dfy`): the connection manager, as the class
  `SocketClient`. It holds the module-level socket, the ready state and
  `firstMessage` flag of every connection, and the visibility of the three
  UI elements. A ghost trace records every call the handlers make into the
  three callbacks. The class invariant ties each connection's part of the
  trace to that connection's state.
- `Index` (`index.dfy`): the three callbacks and the routing of later
  frames to commands or position updates.
- `Interaction` (`interaction.dfy`): the pause button's guard and its
  message.
- `Visualization` (`visualization.dfy`): the node list, the vehicles and
  the scene, as the class `VisualizationState`, and the commands as a
  function on values (`Execute`) that the class's method is proved against.

Each connection has its own `firstMessage` flag, because every
`connectToSocket` call creates a new closure. The model therefore keeps the
flag per connection, next to that socket's ready state.

A `paint_node` with `show_id` false drops the node's reference to its
label, but the label mesh stays among the scene's children. The model
keeps this behaviour.

Three facts about the code shape the model:

- `show_id` is a field of the `paint_node` payload (src/visualization.ts:251).
- The finalize callback runs on every close, clean or not (src/socket.ts:83).
- Routing tests only for the `command` key (src/index.ts:13). A frame is
  cast to the typed records without any check.

## Model

| member | source | states |
|---|---|---|
| Socket.WaitUntilUp | src/socket.ts:32-50 | The probe stops at the first successful ping. It reports up with that ping's index, and every earlier ping failed. When no ping succeeds it is still probing after all of them. One 200 ms wait follows each failed ping. |
| Socket.InitPrecedesData | src/socket.ts:67-75 | In any trace whose per-connection sessions are well shaped, every `DataFrame` callback of a connection comes after an `Init` callback of the same connection. |
| Socket.InitAtMostOnce | src/socket.ts:57-75 | A connection calls the initialize callback at most once in the whole trace. |
| Socket.FinalizeIsLast | src/socket.ts:77-87 | After a connection's `Finalize` callback, that connection makes no further callback. |
| Socket.ShapeAt | src/socket.ts:67-87 | In a well-shaped session, `Init` can only stand first and `Finalize` only last. Every callback strictly between them is `DataFrame`. |
| Socket.CloseSocket | src/socket.ts:21-23 | `WebSocket.close()`: a CONNECTING or OPEN socket becomes CLOSING. A CLOSING or CLOSED socket is unchanged. Every other connection and the `firstMessage` flag are unchanged. |
| Socket.SocketClient.SessionsShaped | src/socket.ts:57-87 | While the client invariant holds, every connection's callbacks are well shaped: nothing, or `Init` then `DataFrame`s, optionally ended by one `Finalize`. |
| Socket.SocketClient.constructor | src/socket.ts:3-14 | The client starts with a null socket, no connections and an empty trace. The connection element is visible, and the panel and colour elements are hidden. |
| Socket.SocketClient.ToggleUI | src/socket.ts:8-12 | The connection element is visible iff `hide`. The panel and colour elements are visible iff not. Nothing else changes. |
| Socket.SocketClient.SocketConnectionFailed | src/socket.ts:16-27 | Closes the module-level socket if there is one, then sets it to null. It schedules exactly one reconnect and keeps the client invariant. |
| Socket.SocketClient.ConnectToSocket | src/socket.ts:52-61 | Probes first. When a ping succeeds, it creates a socket with a fresh identifier, in state CONNECTING with its flag cleared, and makes it the module-level socket. Otherwise nothing changes. |
| Socket.SocketClient.FireReconnect | src/socket.ts:26 | The scheduled timer fires. It consumes one pending reconnect and behaves as `ConnectToSocket`. |
| Socket.SocketClient.OnOpen | src/socket.ts:62-65 | The socket becomes OPEN, its flag is unchanged, and the connected UI is shown. The trace is unchanged. |
| Socket.SocketClient.OnMessage | src/socket.ts:67-75 | The first message of a connection is recorded as `Init`, and every later one as `DataFrame`. Afterwards the flag is set, and the invariant (well-shaped sessions) still holds. |
| Socket.SocketClient.OnClose | src/socket.ts:77-87 | Records `Finalize` for the connection and marks it closed with its flag cleared. It then shows the disconnected UI and runs `socketConnectionFailed`: the module-level socket is closed and nulled, and one reconnect is scheduled. |
| Socket.SocketClient.OnError | src/socket.ts:89-92 | Closes the module-level socket, which need not be the erroring one. The handler throws exactly when that variable is null. The trace is unchanged. |
| Index.UpdateData | src/index.ts:12-18 | A frame goes to `executeCommand` iff it has a `command` key, and to `update` otherwise. The frame is passed on unchanged. |
| Index.Downstream | src/index.ts:8-22 | `Init` becomes `initializeThree` with the same frame. `Finalize` becomes `finalizeVisualization`. `DataFrame` is routed as in `UpdateData`. |
| Index.SessionCalls | src/index.ts:8-22 | For one connection's callbacks, `initializeThree` can only be the first call and `finalizeVisualization` only the last. Every call between them is a command or an update chosen by the frame's key. |
| Index.Startup | src/index.ts:24 | After module setup and one `connectToSocket`: a socket exists, CONNECTING, iff some ping succeeded. The trace is empty and no reconnect is pending. |
| Interaction.Serialize | src/interaction.ts:11-14 | The message is the fixed text `{"interaction":"pause/resume"}`, which opens with `{` and closes with `}`. |
| Interaction.OnPauseClick | src/interaction.ts:9-16 | A click sends at most one message. It sends exactly one `pause/resume` message iff the socket exists and is OPEN. |
| Interaction.ClickOn | src/interaction.ts:10 | Against the running client, a click sends something iff the module-level socket exists and its connection is OPEN. |
| Visualization.RestyledIdempotent | src/visualization.ts:70-79 | Applying the stored colour and size twice gives the same vehicle as applying them once. So a node named twice in the node list ends restyled once. |
| Visualization.NewVehicle | src/visualization.ts:135-148 | A node's new sphere is at the origin without a label. It has the stored colour, or white if none is stored, and the stored size, or 0.1 if none is stored. |
| Visualization.MovedPosition | src/visualization.ts:202-206 | After the position loop, node i's sphere stands at `positions[i]` with the y and z axes swapped, unless a later node entry names the same node. |
| Visualization.MovedKeepsRest | src/visualization.ts:202-206 | The position loop changes positions only. Vehicles of nodes the loop has not reached are unchanged. |
| Visualization.Execute | src/visualization.ts:246-274 | A command fails exactly for a `paint_node` index outside the node list or a `paint_environment` without a scene. `paint_node` sets the colour and sets label presence to `show_id`, adding a label to the scene only when none was there. `paint_environment` changes only the background. `resize_nodes` resizes every vehicle. Other commands change nothing. Node list, keys and coherence are preserved. |
| Visualization.PaintNodeIdempotent | src/visualization.ts:248-264 | Repeating a successful `paint_node` changes nothing: no second label and no other change. |
| Visualization.ResizeLastWins | src/visualization.ts:268-272 | After two `resize_nodes` in a row, only the second size remains. |
| Visualization.VisualizationState.constructor | src/visualization.ts:13-17 | The state starts with no nodes, no vehicles, and no scene, camera or renderer. |
| Visualization.VisualizationState.InitializeVisualization | src/visualization.ts:83-155 | The node list becomes the frame's nodes. The new scene holds the ground and one sphere per node, in order, with the stored background or `#39d7ff`. Each node's vehicle is `NewVehicle`. Other vehicles are kept. |
| Visualization.VisualizationState.AddSpheres | src/visualization.ts:138-153 | The node loop adds exactly one sphere per node, in order, and gives each node a fresh vehicle. Other vehicles stay. |
| Visualization.VisualizationState.LoadStoredConfigs | src/visualization.ts:61-80 | The stored background replaces the scene's background. Every listed node's vehicle takes its stored colour and the stored size, where present, and keeps its position and label. Unlisted vehicles and the key set are unchanged. |
| Visualization.VisualizationState.Update | src/visualization.ts:196-227 | Without a scene nothing happens. Otherwise the nodes are moved in order, and the loop completes iff there are at least as many positions as nodes. Otherwise it throws after moving the nodes that have positions. |
| Visualization.VisualizationState.ExecuteCommand | src/visualization.ts:246-274 | The new state is exactly `Execute` of the old state. The method reports failure, with the state unchanged, exactly when `Execute` fails. |
| Visualization.VisualizationState.FinalizeVisualization | src/visualization.ts:276-301 | Every scene child is removed, and the number of removals equals the old child count. Afterwards vehicles and nodes are empty and scene, camera and renderer are null. |

## Left out

- `fetch`, `AbortController` and the timers are not modelled. Each ping's outcome is an input (`pings`), and `setTimeout` becomes a pending-reconnect counter fired by `FireReconnect`.
- The WebSocket transport is not modelled. The browser's event order is taken as preconditions of the handlers: `onopen` only while CONNECTING, `onmessage` only while OPEN, and `onclose`/`onerror` only while the connection is not in the model's `Closed` state.
- The model's `Closed` state means that the close handler has run, and only `OnClose` enters it. In a browser, readyState is already CLOSED when `error` and `close` fire. So when the erroring socket is the module-level one, `OnError` moves it to CLOSING, where a browser leaves it CLOSED. Nothing observes the difference, because `close` follows in the same task.
- Socket.SocketClient.ConnectToSocket: the call is atomic. The interleaving of other events during the `await` on the probe is not modelled.
- src/index.ts imports `initializeThree`, which src/visualization.ts does not export; that module exports `initializeVisualization`. `Index.InitializeThree` records the call as written. The model does not connect it to `Visualization.VisualizationState.InitializeVisualization`, and it does not model the link error or the `TypeError` that the missing export causes.
- Callbacks are assumed to return normally. A throwing finalize callback would skip the flag reset, the disconnected UI and the reconnect in `onclose` (src/socket.ts:84-86).
- `JSON.parse` and its throw on malformed text are not modelled. A frame is an already decoded JSON object.
- The unchecked cast from a frame to the typed records is not modelled. The visualization takes typed records.
- The `.catch` on the startup call is not modelled, because the modelled `connectToSocket` never rejects.
- `console.log` output is not modelled.
- three.js geometry, materials, camera placement, map controls, the renderer's DOM element, `dispose` calls and the animation loop are not modelled. Camera and renderer are reduced to whether they are set.
- Visualization.VisualizationState.InitializeVisualization: the scene size and camera position computed from the ranges are not modelled.
- Visualization.Execute: the `vehicles` map does not model the key behaviour of a JavaScript plain object. An index with no element in the node list reads the key `"undefined"`, so when a node is named `undefined` an out-of-range `paint_node` repaints that node instead of failing. A node named `__proto__` sets the object's prototype rather than adding a key, so `resize_nodes` skips it. The model fails on every out-of-range index and resizes every node. The same holds for Visualization.VisualizationState.ExecuteCommand, which is proved equal to `Execute`.
- Visualization.Execute: the font loads asynchronously and is taken as loaded when `paint_node` creates a label.
- Label text geometry, label height and the label's placement arithmetic in `update` are not modelled. Only label presence is kept.
- Visualization.VisualizationState.Update: the tracked-variable and status text written to the page, and `formatTime`, are not modelled.
- The colour-form and environment-form submit listeners, the `<option>` elements for nodes, and the resize listener are not modelled. They are user interface wiring outside the core.
- Visualization.VisualizationState.LoadStoredConfigs: local storage is an input (`StoredConfigs`), already parsed. `parseFloat`, a possible NaN size, and the module-level `nodeSize` it overwrites are not modelled.
- JavaScript numbers are modelled as `real`. No rounding happens in the modelled operations.
- No property limits how many sockets are live at once.
