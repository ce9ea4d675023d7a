# OvenWEB controller session engine in Dafny

This project models the client-side controller of an oven/kiln controller web
front end (`clController` in `src/main.ts`). The controller holds one WebSocket to
the oven. It turns user actions into requests and folds the oven's responses back
into its local status, configuration and program list. When the socket closes it
reconnects automatically, except after an explicit disconnect.

The model is a pure transition system:

- `options.dfy` (`Options`): the optional value used for `?` fields, omitted
  arguments and `null`.
- `domain.dfy` (`Domain`): program steps, programs, configuration and status.
  Also the two constructors, which turn omitted arguments into defaults.
- `messages.dfy` (`Messages`): the request envelope with ids `setPG`, `cfgRD`,
  `cfgWR`, `cfgSV`, `pgmRD`, `pgmWR`, `pgmSV`, `start`, `stop`. Its `msg` is a
  tagged variant: configuration, program list or string. Also the response
  envelope with ids `OK`, `ERR`, `STS`, and `WellFormed`, which says which payload
  each request id carries.
- `engine.dfy` (`Engine`): the controller state and one function per public
  method and per WebSocket handler bound in `Connect`. WebSocket objects are
  references in the browser. So the state keeps every socket ever created in
  `sockets`, in creation order. The controller's `WSocket` field is an index into
  that list, or `None` for `null`. Each socket records its URL, its `readyState`
  and whether the controller's `onclose` handler is still attached. `outbox` lists
  every request handed to `send`, in order. `unparsable` is the browser's fixed
  verdict on URLs: the hosts for which `new WebSocket("ws://" + host + "/ws")`
  throws.
- `session.dfy` (`Session`): runs of the controller. A step is a method call,
  the browser starting to close an open socket when the server sends a Close
  frame, or a browser event (open, error, close, message) for one socket. Each
  event first applies the browser's own `readyState` change and then runs the
  handler. The session invariant `Valid` has three parts:
  - the held socket is alive (not closed, close handler attached);
  - every other socket is retired (closed, or closing with its close handler
    detached), so it can never reconnect;
  - the connected flag is set exactly when the held socket is open or closing.
    While the server is closing the socket, the flag stays set until the close
    event, yet every guarded send is dropped.
- `scenarios.dfy` (`Scenarios`): whole-session consequences. These cover the
  two-phase bootstrap (configuration, then programs), start/stop behaviour,
  repeated connects, and dropping commands issued with no socket.

Behaviours of the code worth knowing:

- Where the source's comments and its code disagree, the model follows the code.
  The program class comment says at least one step is mandatory. The
  constructor still keeps an explicit empty step array, so a program can have no
  steps (`Domain.NewProgramEmptyIff`).
- `onStartStop` chooses `stop` or `start` from the last pushed `isRunning` and
  never changes `isRunning` itself. Two calls with no status push in between
  send the same command twice (`Scenarios.StartStopDoesNotToggle`).
- `Connect` on a controller that already holds a socket still records the new
  host, which a later reconnect then uses. If that host makes the WebSocket constructor throw, the
  reconnect throws and the controller is left without a socket
  (`Scenarios.UnparsableRehostEndsReconnects`).
- A close event reconnects whenever the close handler is attached. This
  includes a socket that never opened.

## Model

| member | source | states |
|---|---|---|
| Domain.NewStep | src/main.ts:14-18 | each of tStart, tEnd, duration is the given value, or 0 when omitted |
| Domain.NewProgram | src/main.ts:29-40 | omitted name gives "New program"; omitted steps give exactly one step with all three values 0; a single step becomes a one-element list; an array is kept unchanged |
| Domain.NewProgramEmptyIff | src/main.ts:31-38 | a constructed program has no step if and only if it was given an explicit empty array; the "at least one step" rule is not enforced |
| Engine.DetailsOr | src/main.ts:250-256 | JavaScript truthiness of `details`: a non-empty details string is used, an absent or empty one gives the fallback text |
| Engine.StartStop | src/main.ts:119-135 | with no active program: stsText becomes "no program selected", nothing is sent, nothing else changes; with one: no local change, and exactly `stop` (running) or `start` (not running) is sent only when the socket exists and is open |
| Engine.SetConfiguration | src/main.ts:143-151 | the local configuration is replaced by the argument whether or not anything is sent; a `cfgWR` carrying that same configuration is sent only through an open socket; nothing else changes |
| Engine.SetPrograms | src/main.ts:159-168 | the local program list is replaced by the argument whether or not anything is sent; a `pgmWR` carrying that same list is sent only through an open socket; nothing else changes |
| Engine.SetActiveProgram | src/main.ts:171-176 | no local state changes; a `setPG` carrying the name is sent only through an open socket |
| Engine.SaveConfiguration | src/main.ts:179-183 | no local state changes; a payload-free `cfgSV` is sent only through an open socket |
| Engine.SavePrograms | src/main.ts:186-190 | no local state changes; a payload-free `pgmSV` is sent only through an open socket |
| Engine.Initial | src/main.ts:105-110 | a fresh controller: default status (zeros, false, empty text, no active program), a configuration with no block, no programs, not connected, no socket and so no send possible, empty host, nothing sent |
| Engine.CanSend | src/main.ts:134 | the send guard holds exactly when a socket is held and its readyState is OPEN; it fails with no socket and with a connecting, closing or closed one |
| Engine.Connect | src/main.ts:193-199 | the host is always recorded; a new connecting socket to `ws://<host>/ws` with its close handler attached is created only when none is held and the constructor accepts the host, so a second call keeps the socket; when the constructor throws, no socket is created |
| Engine.AfterClose | src/main.ts:287 | closing a WebSocket leaves it closing, or closed if it already was |
| Engine.Disconnect | src/main.ts:282-291 | afterwards no socket is held and the connected flag is false; the socket that was held has its close handler detached and is closing; no other socket and nothing else changes |
| Engine.OnError | src/main.ts:202-206 | only stsText changes, to "WSError: " followed by the error description |
| Engine.OnOpen | src/main.ts:209-217 | the connected flag becomes true; exactly one `cfgRD` is sent when a socket is held (no readyState check), none otherwise; nothing else changes |
| Engine.OnClose | src/main.ts:220-229 | the connected flag becomes false, stsText becomes the close description, the socket is dropped, and exactly one new connecting socket to the same host is created and held, unless that host makes the WebSocket constructor throw, in which case the reconnect throws and no socket is held; the outbox and other fields are unchanged |
| Engine.OnMessage | src/main.ts:232-275 | no id or unknown id: no change; `STS` with status: the status is replaced whole; `STS` without: only stsText changes, to the error marker; `ERR`: only stsText changes, to details or the default; `OK`: stsText set the same way, a present config replaces the configuration and sends exactly one `pgmRD` through an open socket, present programs replace the list; nothing else changes |
| Session.Requested | src/main.ts:119-190 | the request each public method asks for, as an independent table; every request it names carries the payload its id calls for |
| Session.Apply | src/main.ts:119-190 | send guard for every command: the outbox grows by exactly the requested request when the socket is open and a request is asked for, and stays unchanged otherwise |
| Session.Transition | src/main.ts:198-275 | a step the browser cannot take changes nothing; each step, including the browser starting to close an open socket, appends at most one request to the outbox and creates at most one socket |
| Session.ActiveSocketIsHeld | src/main.ts:209-232 | in a valid state, only the socket the controller holds can be connecting or open, so only it can open, deliver a message or be closed by the server |
| Session.InitialValid | src/main.ts:105-110 | a fresh controller satisfies the session invariant and has sent nothing |
| Session.TransitionPreservesValid | src/main.ts:193-291 | every call and every event keeps the session invariant |
| Session.CallPreservesValid | src/main.ts:119-191 | every public method call keeps the session invariant |
| Session.ClosePreservesValid | src/main.ts:220-229 | a close event keeps the session invariant: the held socket is retired and replaced by a live one when the remembered host is accepted by the WebSocket constructor, and none is held otherwise; any other socket is already retired |
| Session.TransitionPreservesOutboxWellFormed | src/main.ts:143-190 | every request any step sends carries the payload its id calls for |
| Session.RunPreservesValid | src/main.ts:193-291 | every run keeps the session invariant and sends only well-formed requests |
| Session.RunAppendsOnly | src/main.ts:134-265 | along any run the outbox is append-only, with at most one request and at most one new socket per event |
| Session.Reachable | src/main.ts:104-291 | in every state a fresh controller reaches, the held socket is alive, no socket other than the held one can reconnect, the connected flag is true exactly when the held socket is open or closing, and it is true whenever a send can happen |
| Session.SendsOnlyWhenOpen | src/main.ts:209-217 | in a valid state, whenever a step sends a request, the held socket is open afterwards; this also covers the open handler's unguarded send |
| Session.StaleCloseDoesNotReconnect | src/main.ts:284-290 | a close event on a socket the controller no longer holds creates no socket and leaves every controller field unchanged |
| Session.CloseReconnectsOnce | src/main.ts:220-229 | a close event on the held socket, connecting, open or already closing, records the close description, clears the connected flag and closes that socket; it creates exactly one new socket for the remembered host when that host is accepted by the WebSocket constructor and none otherwise; nothing is sent |
| Session.ServerCloseWindow | src/main.ts:143-151 | while the server is closing the held socket, the connected flag stays true but a configuration write is dropped; the local configuration is still replaced |
| Session.DisconnectThenCloseStaysDisconnected | src/main.ts:282-291 | after Disconnect, the close event of the formerly held socket causes no reconnection and the controller stays disconnected |
| Scenarios.ConnectThenOpenRequestsConfig | src/main.ts:193-217 | connecting a fresh controller and opening the socket leaves it connected with exactly one `cfgRD` sent |
| Scenarios.BootstrapTakesBothSnapshots | src/main.ts:253-271 | on an open session, `OK{config}` then `OK{programs}` leave exactly that configuration and that list, and exactly one `pgmRD` was sent |
| Scenarios.FreshSessionBootstrap | src/main.ts:193-271 | connect, open, then configuration and programs arriving leave the session connected with both snapshots and the outbox `[cfgRD, pgmRD]` |
| Scenarios.StartStopFollowsPushedStatus | src/main.ts:126-134 | after a status push naming an active program, start/stop sends `stop` exactly when that status says the oven is running |
| Scenarios.StartStopDoesNotToggle | src/main.ts:126-134 | two start/stop calls with no status push in between send the same command twice and leave the status unchanged |
| Scenarios.SecondConnectKeepsSocket | src/main.ts:196-198 | a second Connect records the new host and keeps the socket the first one created, which exists unless there was none and the first host makes the WebSocket constructor throw |
| Scenarios.UnparsableRehostEndsReconnects | src/main.ts:193-229 | after Connect with a host that makes the WebSocket constructor throw while a socket is held, the socket is kept, but its close event leaves the controller disconnected with no socket |
| Scenarios.OfflineCommandsAreDropped | src/main.ts:134-190 | with no socket held, any sequence of calls other than Connect sends nothing and creates no socket: commands are not queued |

## Left out

- Vue wiring (`createApp`, `reactive`, the global instance and app mounting, src/main.ts:1-2, 344-359): framework plumbing, not session logic.
- The test timer `onTimer`/`intervalId` and the sample programs and configuration (src/main.ts:113-116, 319-353): test fixtures only.
- JSON encoding and decoding and `detach` (src/main.ts:234, 300-302): the message handler takes an already decoded response. Text that fails to parse is not modelled; in the source the parse throws out of the handler. Text that parses to `null` is dropped by the guard at src/main.ts:235, as a response without an id is here. With value semantics `detach` is the identity.
- Shared references: the model copies values. In the source, `SetConfiguration` and `SetPrograms` store the caller's object and the getters return the live object. A caller that edits such an object in place changes the controller's configuration or program list without any `cfgWR` or `pgmWR` being sent. That aliasing is not modelled.
- The SyntaxError thrown by `new WebSocket` for a host whose URL it rejects is not returned to the caller: the model keeps only its effect on state (host recorded, no socket). Which hosts fail is the fixed set `unparsable`; the browser's URL checks themselves are not modelled.
- `GetConfiguration` and `GetPrograms` (src/main.ts:138-140, 154-156): reads of the `cConfiguration` and `cPrograms` fields of the state (see shared references above).
- `console.log` calls: no effect on state.
- Engine.OnError, Engine.OnClose: the exact text built from the error event and from the close event's `wasClean`, `code` and `reason` is not modelled. Each handler takes the description as an opaque string.
- The real `WebSocket` object and the browser's asynchronous scheduling: a run is a sequence of steps in delivery order. Steps the browser never takes are ignored, for example an open event on a socket that is not connecting. The browser sets CLOSED just before firing error and then close; no handler reads the readyState in between, so the model sets CLOSED at the close event and lets error fire on any socket not yet closed.
- `send` on a connecting socket throws in a browser. The model records the open handler's unguarded send as sent. `Session.SendsOnlyWhenOpen` shows this send only ever happens on an open socket.
- Numeric values (temperatures, durations, PID and TFT settings, telemetry) are `real` and never computed on. The default id values of the request and response classes are not modelled: every request sets its id, and a decoded response does not get class defaults.
