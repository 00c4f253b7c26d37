# PUMA 560 kinematics front end: the view's state and derived geometry

This project models the core of the `WebSocketClient` view of the PUMA 560
inverse-kinematics front end. The view sends a target position and an
arm/elbow configuration to a solver over a WebSocket. It applies each reply
to five state slots: three joint angles, a four-point joint chain and an
error message. From those slots and the target it derives the things the 3D
scene draws.

The model has these parts:

- `Protocol`: the request record, the decoded reply (every field optional),
  and `Classify`. It sorts a reply by priority: a truthy `error` first, then a
  complete set of angles, otherwise unrecognised.
- `Scene`: the view's result slots. `ApplyReply` is the `onmessage` handler as
  a state update. The invariant `Consistent`: the chain is absent or has four
  points, and it is present exactly when all three angles are known. Also the
  angle panel, the error banner and the chain drawing.
- `Session`: `ViewState`, the whole state of a mounted view. It holds the
  result slots, the socket and the outbox of transmitted requests. The socket
  is `NoSocket | Connecting | Open | Closing | Closed`: either there is no
  socket yet, or there is one in one of the four WebSocket ready states. Each
  event is a function of this state.
  `Run` replays any sequence of events. Lemmas over `Run` show that
  consistency is kept, that the outbox only grows, and that nothing is ever
  transmitted before the socket reports open.
- `Client.WebSocketClient`: the component as a class. Its fields are the state
  slots. Its methods are the handlers (`OnOpen`, `OnMessage`, `OnError`,
  `OnClose`), `SendMessage`, and the mount effect and its `Cleanup`. Each method
  is specified against the matching `Session.Step`.
- `Grid`: the axis tick values `min + i * step` for `i < floor((max - min) / step) + 1`.
- `Geometry`: the ground-plane footprint rectangle and the drop line to the target.

With the view's constants (range -950 to 950, step 100) the code computes
`Math.floor(1900 / 100) + 1 = 20` ticks, the last of which is 950, not 850
(`Grid.ViewTicks`).

The socket's ready state changes when the browser delivers open or close
events. The `onopen` and `onclose` handlers themselves only log, so those
changes are inputs to the model. Calling `close()` on an open socket moves it
to `Closing`. The cleanup does not close a socket that is still connecting
(`Session.TeardownLeavesConnectingSocket`).

## Model

| member | source | states |
|---|---|---|
| `Protocol.Classify` | src/components/WebSocketClient.tsx:43-63 | A truthy error gives a failure with that message, whatever else the reply holds. With no truthy error and all three angles present, it gives a success with those angles and exactly four chain points: a missing point is the origin and a present one is kept. Anything else is unrecognised. Both directions are stated. |
| `Scene.ApplyReply` | src/components/WebSocketClient.tsx:40-64 | A truthy error sets the error and clears all three angles and the chain together. Otherwise, with all three angles present, the angles are set, the chain has exactly 4 points (a missing one defaults to the origin) and the error is cleared. Any other reply leaves every slot unchanged. |
| `Scene.ApplyReplyKeepsConsistent` | src/components/WebSocketClient.tsx:43-62 | Handling a reply keeps the invariant: the chain is empty or has four points, and it is non-empty exactly when all three angles are known. |
| `Scene.Panel` | src/components/WebSocketClient.tsx:195-207 | The angle panel is shown if and only if all three angles are non-null. It shows those angles and one row per chain point. |
| `Scene.Banner` | src/components/WebSocketClient.tsx:193 | The error banner is shown if and only if the error is a non-empty string, and it shows that string. |
| `Scene.DrawChain` | src/components/WebSocketClient.tsx:291-305 | Chain markers and the polyline are drawn if and only if the chain is non-empty. There is one marker per point, and the polyline passes through every point in order. |
| `Scene.ChainDrawnWithPanel` | src/components/WebSocketClient.tsx:291-305 | In a consistent view the chain is drawn exactly when the angle panel is shown, and then with four markers. |
| `Session.Mount` | src/components/WebSocketClient.tsx:33-75 | Mounting creates a socket in the connecting state and keeps it in the view's state. Nothing else changes. |
| `Session.SocketOpen` | src/components/WebSocketClient.tsx:36-38 | The open event moves a connecting socket to open. It changes nothing else. |
| `Session.SocketClose` | src/components/WebSocketClient.tsx:71-73 | The close event moves an existing socket to closed. It changes nothing else. |
| `Session.Receive` | src/components/WebSocketClient.tsx:40-64 | A reply updates only the result slots, as `ApplyReply` says. The socket and the outbox are unchanged. |
| `Session.TransportError` | src/components/WebSocketClient.tsx:66-69 | A transport error sets the error to "Error en la conexión WebSocket.". The angles, the chain, the socket and the outbox are left as they were. |
| `Session.Send` | src/components/WebSocketClient.tsx:84-97 | Exactly one request `{X, Y, Z, arm, elbow}` is appended to the outbox if and only if the socket is open. Otherwise nothing is sent, the error becomes "WebSocket no está conectado", and the angles and the chain are unchanged. |
| `Session.Teardown` | src/components/WebSocketClient.tsx:77-81 | Cleanup closes the socket (it moves to closing) only when it is open. In every other state nothing changes. |
| `Session.StepKeepsConsistent` | src/components/WebSocketClient.tsx:40-97 | Every event keeps the result slots consistent. |
| `Session.RunKeepsConsistent` | src/components/WebSocketClient.tsx:40-97 | Any sequence of events keeps the result slots consistent. |
| `Session.ChainDrawnWithPanelAfterRun` | src/components/WebSocketClient.tsx:291-305 | From a freshly created view, after any events, the chain is drawn exactly when the angle panel is shown. |
| `Session.RunOutboxGrows` | src/components/WebSocketClient.tsx:93 | Along any sequence of events, the requests transmitted earlier stay a prefix of those transmitted later. |
| `Session.NoTransmitUntilOpened` | src/components/WebSocketClient.tsx:85-96 | If the socket is not open and never reports opening, no event transmits anything and the socket never becomes open. |
| `Session.TeardownLeavesConnectingSocket` | src/components/WebSocketClient.tsx:77-81 | Unmounting while the socket is still connecting leaves it connecting: it is not closed. |
| `Client.WebSocketClient.constructor` | src/components/WebSocketClient.tsx:19-31 | A new view has no socket, null angles, an empty chain, no error and nothing sent. |
| `Client.WebSocketClient.Mount` | src/components/WebSocketClient.tsx:33-75 | The mount effect leaves the view holding a connecting socket. The new state is `Session.Mount` of the old one. |
| `Client.WebSocketClient.OnOpen` | src/components/WebSocketClient.tsx:36-38 | The new state is `Session.SocketOpen` of the old one. |
| `Client.WebSocketClient.OnMessage` | src/components/WebSocketClient.tsx:40-64 | The fields are updated in place to `ApplyReply` of the old state, and the invariant is kept. A truthy error clears the angles and the chain. A complete reply sets the three angles and four chain points and clears the error. Anything else changes no field. |
| `Client.WebSocketClient.OnError` | src/components/WebSocketClient.tsx:66-69 | Only the error field changes, to the fixed connection-error message. |
| `Client.WebSocketClient.OnClose` | src/components/WebSocketClient.tsx:71-73 | The new state is `Session.SocketClose` of the old one. |
| `Client.WebSocketClient.SendMessage` | src/components/WebSocketClient.tsx:84-97 | With an open socket, exactly one request is appended to the outbox and the error is untouched. Otherwise the outbox is unchanged and the error is the not-connected message. The angles, the chain and the socket never change. |
| `Client.WebSocketClient.Cleanup` | src/components/WebSocketClient.tsx:77-81 | An open socket moves to closing. In any other state no field changes. |
| `Grid.TickCountBounds` | src/components/WebSocketClient.tsx:246 | For a positive step, the count is `floor((max - min) / step) + 1` when `max >= min` and zero otherwise. Every index below the count gives a value in `[min, max]`, and the first index past it gives a value above `max`. |
| `Grid.Ticks` | src/components/WebSocketClient.tsx:246-247 | For a positive step there are `floor((max - min) / step) + 1` values when `max >= min` and none otherwise. The first is `min`, consecutive values differ by `step`, and all lie in `[min, max]`. The next value would exceed `max`: no in-range tick is missing. |
| `Grid.ViewTicks` | src/components/WebSocketClient.tsx:104-106 | With the view's constants -950, 950 and 100 there are 20 ticks, from -950 to 950. |
| `Geometry.Footprint` | src/components/WebSocketClient.tsx:237-240 | Four segments forming the closed loop (0,0,0)→(x,0,0)→(x,y,0)→(0,y,0)→(0,0,0): the corners are given in that order, each segment begins where the previous one ends, the last returns to the origin, every corner has z = 0, and every side is parallel to an axis. |
| `Geometry.DropLine` | src/components/WebSocketClient.tsx:242-243 | A vertical segment from the footprint's far corner (x, y, 0) to the target (x, y, z). |

## Left out

- JSON decoding and encoding, and the WebSocket transport: a reply is an already decoded record whose fields are either absent or well typed, and a send is an append to the outbox. A field holding JSON `null`, a non-string `error` or a chain point that is not a three-element array is not modelled.
- `parseFloat` of the X, Y and Z text inputs, NaN, and the `toFixed(2)` label and panel text formatting are floating point parsing and formatting. Coordinates, angles and ticks are `real`, and the target is given already parsed.
- `SendMessage`: the form's arm and elbow selectors, which are UI, are passed as integers. The request carries whatever integers are given.
- React's state batching, re-rendering and the asynchronous delivery of events: each handler is one atomic step, and events are handled one at a time.
- Console logging in `onopen`, `onerror` and `onclose` is diagnostic output with no state effect.
- The ready-state changes the browser makes on its own (open, close) are modelled as events, including after a transport error. Nothing else about the transport is modelled.
- The layout, the form inputs, the step-size selector, the camera, the lights, the orbit controls, the axis name labels and the tick label placement (the 0.01 offsets) are UI and foreign rendering calls. Only the tick values, the footprint, the drop line, the chain drawing, the angle panel and the error banner are modelled.
