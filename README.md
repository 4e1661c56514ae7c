# City–country game client: the browser-side state machine

The front end of a multiplayer word game has three views:
- the **lobby** (`WordInput`): it resolves the player identity, lists the rooms, and lets the player host or join a room;
- the **room** (`GamePage`): it shows the roster of players in one room and lets the player leave;
- the **login** view (`LoginPage`): it creates a guest identity through an HTTP request.

All three views share one socket.io connection, the browser's `localStorage`, and the router's current path.

This project models one browser tab of that client as a single Dafny class, `Session.Client` (client.dfy). It holds:
- `storage`: the stand-in for `localStorage`;
- `route`: the current path;
- `emitted`: every event passed to `socket.emit`, with its payload, in order;
- `handlers`: the socket's listener registry, keyed by event name;
- `alerts`: every alert shown, in order;
- `beforeUnloadGuard`: whether `window.onbeforeunload` is set;
- `guestRequests`: the log of guest-login request bodies;
- the state of each view: the lobby's room list, preview roster and the two modal forms; the room view's room and roster; the login view's user name and toggle.

Each user action, each effect and each effect cleanup is a method whose contract states every field it writes. The frame of each method is its list of written fields, so everything else is unchanged.

Listener closures are values of the datatype `Events.Listener`. The lobby's `connect` closure captures the player id of the mount that registered it. An inbound server event is delivered by `Session.Client.Deliver`, the socket's dispatch loop: it runs each listener registered under the event's name, in registration order. `Deliver` is specified by the pure function `Inbound.Step` over the value `Inbound.ClientState`, which `Session.Client.State()` packs from the fields. The trace lemmas in inbound.dfy are stated over sequences of events.

Modules:
- `Events`: payloads, outbound events, listener closures and the names they handle.
- `Registry`: `socket.on` appends a listener under a name. `socket.off(name)`, called with no listener argument, drops every listener of that name.
- `Lobby`, `Game`, `Login`: each view's pure logic.
- `Inbound`: what delivered events do to the state.
- `Session`: the class.

Two behaviours of the source are modelled as written:
- **The `connect` listener outlives the lobby.** The connect effect (WordInput.js:56-60) registers a `connect` listener and has no cleanup. Every lobby mount therefore adds one more listener, and on every reconnection each of them announces its captured id (`Lobby.LobbyMountThenCleanup`, `Inbound.ConnectOnlyAnnounces`).
- **A redirect does not stop the lobby's other effects.** When the identity is incomplete, the redirect effect only navigates. The listener effect still emits `get_rooms` and registers its listeners (`Session.Client.LobbyMount`).

## Model

| member | source | states |
|---|---|---|
| Lobby.ResolvePlayerId | src/components/WordInput.js:14-20 | a stored non-empty id is reused and storage is untouched; otherwise the fresh id is stored under `playerId` and used; with a non-empty fresh id the resulting id is non-empty and is what storage holds; no other key changes |
| Lobby.RedirectExactlyWhenNameMissing | src/components/WordInput.js:14-34 | with a non-empty fresh id, the condition `!playerId \|\| !playerName` holds exactly when no non-empty player name is stored |
| Lobby.LobbyRegistrationsSymmetric | src/components/WordInput.js:66-93 | the cleanup's five `off` names are exactly the names of the five `on` calls, in order; each listener handles the name it is registered under; `connect` is not among them |
| Lobby.LobbyRegistrationsInOrder | src/components/WordInput.js:66-85 | the five registrations are the five `socket.on` calls, applied in source order |
| Lobby.LobbyNamesInOrder | src/components/WordInput.js:88-94 | the cleanup is the five `socket.off` calls, applied in source order |
| Lobby.LobbyCleanupDetaches | src/components/WordInput.js:88-94 | after the cleanup, no lobby listener remains under any name of a well-keyed registry |
| Lobby.LobbyMountThenCleanup | src/components/WordInput.js:56-95 | a lobby mount followed by its cleanup is the same as only dropping the five names, plus one extra `connect` listener carrying the mount's id, appended after those already there |
| Game.RoomFromRoute | src/App.js:20 | a path matching `/game/:roomName` yields a non-empty room name without `/`, and the path is exactly the game route of that room |
| Game.RouteRoundTrip | src/App.js:20 | every non-empty room name without `/` is recovered from the route the lobby navigates to |
| Game.RoutesDistinct | src/App.js:14-20 | `/` and `/login` never match the game route, and no game route equals either of them |
| Game.GameRegistrationsSymmetric | src/components/GamePage.js:12-40 | the cleanup's three `off` names are exactly the names of the three `on` calls, and the roster listener handles each of them |
| Game.GameRegistrationsInOrder | src/components/GamePage.js:12-27 | the three registrations are the three `socket.on` calls, in source order |
| Game.GameNamesInOrder | src/components/GamePage.js:37-40 | the cleanup is the three `socket.off` calls, in source order |
| Game.GameCleanupDetaches | src/components/GamePage.js:37-40 | after the cleanup, the roster listener is gone from every name of a well-keyed registry |
| Game.GameMountThenCleanup | src/components/GamePage.js:10-43 | a room view mount followed by its cleanup is the same as only dropping the three roster names: nothing of the view survives |
| Login.TrimStartSpec | src/components/LoginPage.js:18 | leading-whitespace removal keeps a suffix, drops only whitespace, and stops at a character that is not whitespace |
| Login.TrimEndSpec | src/components/LoginPage.js:18 | trailing-whitespace removal keeps a prefix, drops only whitespace, and stops at a character that is not whitespace |
| Login.BlankIffAllWhitespace | src/components/LoginPage.js:18 | `username.trim()` is empty exactly when every character is ECMAScript whitespace or a line terminator |
| Login.TrimIsSlice | src/components/LoginPage.js:18 | the trimmed name is a contiguous slice of the original that neither starts nor ends with whitespace |
| Registry.OnEffect | src/components/WordInput.js:57-59 | `socket.on(name, l)` appends `l` after the listeners already under `name`, adds the name, and leaves every other name alone |
| Registry.OffEffect | src/components/WordInput.js:89-93 | `socket.off(name)` empties `name` and leaves every other name alone |
| Registry.RegisteredComesFromRun | src/components/WordInput.js:66-85 | a run of `on` calls puts a listener under a name only through that very registration |
| Registry.UnmentionedNameGetsNothing | src/components/WordInput.js:66-85 | a name that a run of `on` calls never mentions gets no listener from it |
| Registry.OnAllListeners | src/components/WordInput.js:66-85 | after a run of `on` calls, each name holds its earlier listeners followed by the run's listeners for it, in order |
| Registry.OnAllNames | src/components/WordInput.js:66-85 | a run of `on` calls adds exactly the names it mentions |
| Registry.OffAll | src/components/WordInput.js:88-94 | a run of `off` calls empties exactly the given names; every other name keeps its listeners |
| Registry.OffUndoesOn | src/components/WordInput.js:63-95 | deregistering every name a run of registrations used undoes that run |
| Registry.OnAllWellKeyed | src/components/WordInput.js:66-85 | registering listeners under names they handle keeps every listener under a name it handles |
| Registry.OffAllWellKeyed | src/components/WordInput.js:88-94 | deregistration keeps the registry well keyed |
| Inbound.DispatchOnlyListenerFields | src/components/WordInput.js:57-85 | listeners write only the emit log, the route, the alerts, the room list and the two rosters |
| Inbound.DeliverAllOnlyListenerFields | src/components/GamePage.js:12-27 | no sequence of inbound events touches storage, the registry, the forms or the guard |
| Inbound.ConnectOnlyAnnounces | src/components/WordInput.js:57-59 | `connect` only emits, one `register_playerId` per connect listener, each with its captured id, in registration order |
| Inbound.UpdateRoomsOnlyReplaces | src/components/WordInput.js:66-68 | `update_rooms` replaces the room list wholesale with its payload when the lobby listens, and otherwise changes nothing |
| Inbound.RosterEventOnlyReplaces | src/components/GamePage.js:12-27 | a roster event replaces the room view's roster with its payload when that view listens, and for `player_joined` and `player_left` the lobby's preview roster when the lobby listens; nothing else changes |
| Inbound.RoomErrorOnlyAlerts | src/components/WordInput.js:78-80 | `room_error` only appends the server's message to the alerts, once per registered error listener |
| Inbound.JoinSuccessOnlyNavigates | src/components/WordInput.js:83-85 | `join_room_success` only sets the route to `/game/<roomName>`, and only when the lobby listens |
| Inbound.RosterIsLastSnapshot | src/components/GamePage.js:12-27 | while the room view listens, after any event sequence the roster is the payload of the last roster event, or unchanged if there was none |
| Inbound.DispatchKeepsRoster | src/components/GamePage.js:12-27 | events other than the three roster events never change the roster |
| Inbound.DetachedRosterFrozen | src/components/GamePage.js:37-40 | once the roster listener is gone from every name, no event sequence changes the roster |
| Inbound.DispatchKeepsLobby | src/components/WordInput.js:66-85 | listeners other than the lobby's never touch the room list, the preview roster, the alerts or the route |
| Inbound.DetachedLobbyFrozen | src/components/WordInput.js:88-94 | after the lobby's cleanup, no event sequence changes the room list, the preview roster, the alerts or the route: a stale lobby cannot navigate |
| Session.Client.constructor | src/App.js:11-22 | a fresh tab: the given storage and path, nothing emitted, no listener, no alert, no guard |
| Session.Client.InitIdentity | src/components/WordInput.js:14-27 | the id and storage are as `ResolvePlayerId` gives them, and the name is the stored name |
| Session.Client.RedirectEffect | src/components/WordInput.js:30-34 | the route becomes `/login` exactly when the id or the name is empty; otherwise it stays |
| Session.Client.ConnectEffect | src/components/WordInput.js:56-60 | one `connect` listener carrying the current id is appended; the registry stays well keyed |
| Session.Client.ListenerEffect | src/components/WordInput.js:63-85 | `get_rooms` is emitted once, and the five lobby listeners are registered in order |
| Session.Client.LobbyCleanup | src/components/WordInput.js:88-94 | the five lobby names are dropped, and the `connect` listeners stay; afterwards no lobby listener is left under any name |
| Session.Client.LobbyEffects | src/components/WordInput.js:30-95 | the redirect, connect and listener effects in declaration order, with their combined effect on route, emit log and registry |
| Session.Client.ResetLobbyView | src/components/WordInput.js:39-50 | the lobby's initial state: no rooms, no players, both modals closed and empty |
| Session.Client.LobbyMount | src/components/WordInput.js:14-95 | a full lobby mount: initial view state, identity, redirect decision, one `get_rooms`, the `connect` listener and then the five lobby listeners |
| Session.Client.OpenHostModal | src/components/WordInput.js:155 | the host modal opens |
| Session.Client.CancelHostModal | src/components/WordInput.js:182 | the host modal closes and what was typed is kept |
| Session.Client.EditHostRoomName | src/components/WordInput.js:169 | the host room name field holds the typed value |
| Session.Client.EditHostPassword | src/components/WordInput.js:176 | the host password field holds the typed value |
| Session.Client.HostRoom | src/components/WordInput.js:100-117 | with an empty room name or password nothing changes; otherwise `host_room{roomName, password, playerId}` is emitted, both credentials are stored, and the modal is closed and cleared |
| Session.Client.OpenJoinModal | src/components/WordInput.js:122-127 | the join modal opens on the chosen room with an empty password |
| Session.Client.EditJoinPassword | src/components/WordInput.js:200 | the join password field holds the typed value |
| Session.Client.CancelJoinModal | src/components/WordInput.js:206 | the join modal closes |
| Session.Client.HandleJoinRoom | src/components/WordInput.js:129-144 | with an empty room name or password nothing changes; otherwise `join_room{roomName, password, playerId}` is emitted, both credentials are stored and the modal closes, with its fields kept |
| Session.Client.GameEffect | src/components/GamePage.js:10-34 | registers `players_in_room`, emits `get_room_players{roomName}`, registers `player_joined` and `player_left`, and installs the unload guard |
| Session.Client.GameCleanup | src/components/GamePage.js:37-42 | the three roster names are dropped and the unload guard is removed; afterwards the roster listener is under no name |
| Session.Client.GameMount | src/components/GamePage.js:6-43 | the room is the path's `:roomName`, the roster starts empty, and then the effect runs for that room |
| Session.Client.GameRouteChange | src/components/GamePage.js:10-43 | for the same room nothing happens; for a new room, cleanup and then the effect for the new room; the roster is kept |
| Session.Client.HandleLeaveRoom | src/components/GamePage.js:46-50 | `leave_room{roomName, playerId}` is emitted with whatever id storage holds (possibly none), and the route becomes `/` at once |
| Session.Client.UnloadPrompt | src/components/GamePage.js:30-34 | an unload attempt prompts, with the warning text, exactly when the guard is installed |
| Session.Client.LoginMount | src/components/LoginPage.js:9-14 | the login view starts with an empty name and the real login hidden |
| Session.Client.EditUsername | src/components/LoginPage.js:72 | the user name field holds the typed value |
| Session.Client.HandlePlayAsGuest | src/components/LoginPage.js:17-44 | a name that trims to empty only alerts: no request, no storage write, no navigation; otherwise the untrimmed name is sent; a created identity stores `playerId` and then `playerName` and navigates to `/`; a failure only alerts |
| Session.Client.HandleRealLogin | src/components/LoginPage.js:48-55 | only the placeholder alert is shown |
| Session.Client.ToggleRealLogin | src/components/LoginPage.js:58-60 | the real-login toggle is negated, so two toggles restore it |
| Session.Client.RunConnectAnnounce | src/components/WordInput.js:57-59 | the `connect` closure emits `register_playerId` with its captured id on `connect`, and does nothing on any other event |
| Session.Client.RunLobbyRooms | src/components/WordInput.js:66-68 | the `update_rooms` closure replaces the room list with the payload |
| Session.Client.RunLobbyPlayers | src/components/WordInput.js:70-76 | the `player_joined` / `player_left` closure replaces the preview roster with the payload |
| Session.Client.RunLobbyRoomError | src/components/WordInput.js:78-80 | the `room_error` closure appends the message to the alerts |
| Session.Client.RunLobbyJoinSuccess | src/components/WordInput.js:83-85 | the `join_room_success` closure navigates to `/game/<roomName>` |
| Session.Client.RunGameRoster | src/components/GamePage.js:12-27 | the room view's roster closure replaces the roster with the payload |
| Session.Client.RunListener | src/components/WordInput.js:66-85 | running one closure on one event changes the state exactly as `Inbound.Apply` says |
| Session.Client.Deliver | src/components/GamePage.js:12-27 | delivering an event runs every listener under its name in registration order; the new state is `Inbound.Step` of the old |

## Left out

- Rendering: JSX, CSS, list keys and the `console.log` / `console.error` calls are not modelled. They do not change state.
- The socket.io transport: the connection to the URL in src/socket.js, reconnection and acknowledgements are not modelled.
  - The socket is an emit log plus a listener registry.
  - `socket.off(name)` with no listener argument is taken to remove every listener of that name. The source relies on this.
  - Delivery of one event is `Session.Client.Deliver`, which stands in for the emitter's own loop.
- `fetch`, `response.ok`, `response.json()` and `uuidv4()` are foreign calls.
  - The guest request's outcome is the parameter `Login.GuestOutcome`; a rejected request, a non-ok status and an unreadable body all fall into `Failed`.
  - The generated id is the parameter `freshId`.
  - A body whose `playerId` or `name` is missing is stored by JavaScript as the string `"undefined"`; this is not modelled, and `Created` carries strings.
- React scheduling is not modelled: effect timing, StrictMode double effects, re-renders, and a view unmounting while `handlePlayAsGuest` awaits the request.
  - Mounts, cleanups and route changes are explicit method calls.
  - Navigation only sets `route`; it does not itself unmount or mount a view.
  - The lobby's listener effect re-runs when `navigate` changes identity; this is not modelled (it is taken as stable).
- Session.Client.GameMount: requires the path to match `/game/:roomName`, because the router mounts the view only there. `Game.RoomFromRoute` approximates react-router's matching. It leaves out URL decoding, trailing slashes, query strings, fragments and case-insensitive matching (react-router also mounts the view at `/GAME/beta`, which `RoomFromRoute` rejects). A room name containing `/` therefore never matches.
- Game.GameRoute: the path is built from the room name without percent-encoding. A room name from `join_room_success` that contains `?`, `#` or `%` does not come back intact through the browser's URL and `useParams`. The room view would then ask for the players of a different room. The model treats the route as a plain string and does not capture this.
- The login view's email and password fields are only typed into and never read, so they are not modelled.
- Player scores are modelled as integers; the payload's numbers are not checked.
