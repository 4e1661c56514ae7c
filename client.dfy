/** One browser tab of the game client: the three views (lobby, room, login),
    the socket they share, local storage, the current route, the alerts shown
    and the unload guard. Each user action, each effect and its cleanup, and
    each inbound server event is a method that says exactly what it changes. */
module Session {
  import opened Events
  import opened Registry
  import opened Lobby
  import opened Game
  import opened Login
  import opened Inbound

  class Client {
    // Browser and socket.
    var storage: Storage                  // localStorage
    var route: string                     // the current path
    var emitted: seq<Outbound>            // everything passed to socket.emit, in order
    var handlers: Registry                // the socket's listeners, by event name
    var alerts: seq<string>               // every alert shown, in order
    var beforeUnloadGuard: bool           // window.onbeforeunload is set
    var guestRequests: seq<string>        // the `name` of every guest request sent

    // Lobby view state.
    var playerId: string
    var playerName: string
    var availableRooms: seq<RoomSummary>
    var lobbyPlayers: seq<Player>
    var hostModalOpen: bool
    var hostRoomName: string
    var hostPassword: string
    var joinModalOpen: bool
    var joinRoomName: string
    var joinPassword: string

    // Room view state.
    var gameRoom: string                  // the `:roomName` route parameter
    var roster: seq<Player>

    // Login view state.
    var username: string
    var showRealLogin: bool

    /** All fields as one value. */
    function State(): ClientState
      reads this
    {
      ClientState(storage, route, emitted, handlers, alerts, beforeUnloadGuard, guestRequests,
                  playerId, playerName, availableRooms, lobbyPlayers,
                  hostModalOpen, hostRoomName, hostPassword,
                  joinModalOpen, joinRoomName, joinPassword,
                  gameRoom, roster, username, showRealLogin)
    }

    /** Every registered listener sits under an event name it handles. */
    ghost predicate Valid()
      reads this
    {
      WellKeyed(handlers)
    }

    /** A tab opened at `route0` over the storage left by earlier sessions:
        nothing emitted, no listener, no alert, no guard. */
    constructor (storage0: Storage, route0: string)
      ensures Valid()
      ensures State() == ClientState(storage0, route0, [], map[], [], false, [],
                                     "", "", [], [], false, "", "", false, "", "", "", [],
                                     "", false)
    {
      storage, route, emitted, handlers, alerts := storage0, route0, [], map[], [];
      beforeUnloadGuard, guestRequests := false, [];
      playerId, playerName, availableRooms, lobbyPlayers := "", "", [], [];
      hostModalOpen, hostRoomName, hostPassword := false, "", "";
      joinModalOpen, joinRoomName, joinPassword := false, "", "";
      gameRoom, roster := "", [];
      username, showRealLogin := "", false;
    }

    // ===================== Lobby view =====================

    /** The identity initialisers: a stored non-empty `playerId` is reused,
        otherwise `freshId` (the uuid) is stored and used; `playerName` is the
        stored name or "". */
    method InitIdentity(freshId: string)
      modifies this`storage, this`playerId, this`playerName
      ensures (playerId, storage) == ResolvePlayerId(old(storage), freshId)
      ensures playerName == StoredName(storage)
    {
      var saved := GetItem(storage, PlayerIdKey);
      if Truthy(saved) {
        playerId := saved.value;
      } else {
        storage := storage[PlayerIdKey := freshId];
        playerId := freshId;
      }
      var savedName := GetItem(storage, PlayerNameKey);
      playerName := if Truthy(savedName) then savedName.value else "";
    }

    /** The redirect effect: to the login view when either part of the
        identity is empty, otherwise nothing. */
    method RedirectEffect()
      modifies this`route
      ensures route == if MustRedirect(playerId, playerName) then LoginRoute else old(route)
    {
      if playerId == "" || playerName == "" {
        route := LoginRoute;
      }
    }

    /** The connect effect: registers a `connect` listener that announces the
        current id. It has no cleanup, so the listener outlives the view. */
    method ConnectEffect()
      requires Valid()
      modifies this`handlers
      ensures Valid()
      ensures handlers == On(old(handlers), ConnectName, ConnectAnnounce(playerId))
    {
      handlers := On(handlers, ConnectName, ConnectAnnounce(playerId));
      assert Handles(ConnectAnnounce(playerId), ConnectName);
    }

    /** The listener effect: requests the room list, then registers the five
        lobby listeners. */
    method ListenerEffect()
      requires Valid()
      modifies this`emitted, this`handlers
      ensures Valid()
      ensures emitted == old(emitted) + [GetRoomsOut]
      ensures handlers == OnAll(old(handlers), LobbyRegistrations)
    {
      ghost var h0 := handlers;
      emitted := emitted + [GetRoomsOut];
      handlers := On(handlers, UpdateRoomsName, LobbyRooms);
      handlers := On(handlers, PlayerJoinedName, LobbyPlayers);
      handlers := On(handlers, PlayerLeftName, LobbyPlayers);
      handlers := On(handlers, RoomErrorName, LobbyRoomError);
      handlers := On(handlers, JoinRoomSuccessName, LobbyJoinSuccess);
      LobbyRegistrationsInOrder(h0);
      LobbyRegistrationsSymmetric();
      OnAllWellKeyed(h0, LobbyRegistrations);
    }

    /** The listener effect's cleanup: removes the five lobby event names,
        and nothing else (the `connect` listener stays). */
    method LobbyCleanup()
      requires Valid()
      modifies this`handlers
      ensures Valid()
      ensures handlers == OffAll(old(handlers), LobbyNames)
      ensures forall n, l | l in Listeners(handlers, n) :: !IsLobbyListener(l)
    {
      ghost var h0 := handlers;
      handlers := Off(handlers, UpdateRoomsName);
      handlers := Off(handlers, PlayerJoinedName);
      handlers := Off(handlers, PlayerLeftName);
      handlers := Off(handlers, RoomErrorName);
      handlers := Off(handlers, JoinRoomSuccessName);
      LobbyNamesInOrder(h0);
      OffAllWellKeyed(h0, LobbyNames);
      LobbyCleanupDetaches(h0);
    }

    /** The lobby's three mount effects, in declaration order: redirect,
        connect, listeners. */
    method LobbyEffects()
      requires Valid()
      modifies this`route, this`emitted, this`handlers
      ensures Valid()
      ensures route == if MustRedirect(playerId, playerName) then LoginRoute else old(route)
      ensures emitted == old(emitted) + [GetRoomsOut]
      ensures handlers == OnAll(On(old(handlers), ConnectName, ConnectAnnounce(playerId)), LobbyRegistrations)
    {
      RedirectEffect();
      ConnectEffect();
      ListenerEffect();
    }

    /** The lobby's `useState` initial values: no rooms, no players, both
        modals closed and empty. */
    method ResetLobbyView()
      modifies this`availableRooms, this`lobbyPlayers,
               this`hostModalOpen, this`hostRoomName, this`hostPassword,
               this`joinModalOpen, this`joinRoomName, this`joinPassword
      ensures availableRooms == [] && lobbyPlayers == []
      ensures !hostModalOpen && hostRoomName == "" && hostPassword == ""
      ensures !joinModalOpen && joinRoomName == "" && joinPassword == ""
    {
      availableRooms, lobbyPlayers := [], [];
      hostModalOpen, hostRoomName, hostPassword := false, "", "";
      joinModalOpen, joinRoomName, joinPassword := false, "", "";
    }

    /** Mounting the lobby: fresh view state, the identity initialisers, then
        the redirect, connect and listener effects in declaration order. */
    method LobbyMount(freshId: string)
      requires Valid()
      modifies this`storage, this`playerId, this`playerName, this`route, this`emitted,
               this`handlers, this`availableRooms, this`lobbyPlayers,
               this`hostModalOpen, this`hostRoomName, this`hostPassword,
               this`joinModalOpen, this`joinRoomName, this`joinPassword
      ensures Valid()
      ensures (playerId, storage) == ResolvePlayerId(old(storage), freshId)
      ensures playerName == StoredName(storage)
      ensures route == if MustRedirect(playerId, playerName) then LoginRoute else old(route)
      ensures emitted == old(emitted) + [GetRoomsOut]
      ensures handlers == OnAll(On(old(handlers), ConnectName, ConnectAnnounce(playerId)), LobbyRegistrations)
      ensures availableRooms == [] && lobbyPlayers == []
      ensures !hostModalOpen && hostRoomName == "" && hostPassword == ""
      ensures !joinModalOpen && joinRoomName == "" && joinPassword == ""
    {
      ResetLobbyView();
      InitIdentity(freshId);
      LobbyEffects();
    }

    /** The "Host a Room" button. */
    method OpenHostModal()
      modifies this`hostModalOpen
      ensures hostModalOpen
    {
      hostModalOpen := true;
    }

    /** The host modal's Cancel button: closes it, keeping what was typed. */
    method CancelHostModal()
      modifies this`hostModalOpen
      ensures !hostModalOpen
    {
      hostModalOpen := false;
    }

    /** Typing in the host modal's room name field. */
    method EditHostRoomName(value: string)
      modifies this`hostRoomName
      ensures hostRoomName == value
    {
      hostRoomName := value;
    }

    /** Typing in the host modal's password field. */
    method EditHostPassword(value: string)
      modifies this`hostPassword
      ensures hostPassword == value
    {
      hostPassword := value;
    }

    /** `hostRoom`: with an empty room name or password nothing happens;
        otherwise the request is emitted with the lobby's id, the credentials
        are stored, and the modal is closed and cleared. */
    method HostRoom()
      modifies this`emitted, this`storage, this`hostModalOpen, this`hostRoomName, this`hostPassword
      ensures !Filled(old(hostRoomName), old(hostPassword)) ==> unchanged(this)
      ensures Filled(old(hostRoomName), old(hostPassword)) ==>
        && emitted == old(emitted) + [HostRoomOut(old(hostRoomName), old(hostPassword), playerId)]
        && storage == old(storage)[RoomNameKey := old(hostRoomName)][RoomPasswordKey := old(hostPassword)]
        && !hostModalOpen && hostRoomName == "" && hostPassword == ""
    {
      if hostRoomName != "" && hostPassword != "" {
        emitted := emitted + [HostRoomOut(hostRoomName, hostPassword, playerId)];
        storage := storage[RoomNameKey := hostRoomName];
        storage := storage[RoomPasswordKey := hostPassword];
        hostModalOpen := false;
        hostRoomName := "";
        hostPassword := "";
      }
    }

    /** `openJoinModal(roomName)`: targets the chosen room, clears the
        password and opens the join modal. */
    method OpenJoinModal(roomName: string)
      modifies this`joinRoomName, this`joinPassword, this`joinModalOpen
      ensures joinRoomName == roomName && joinPassword == "" && joinModalOpen
    {
      joinRoomName := roomName;
      joinPassword := "";
      joinModalOpen := true;
    }

    /** Typing in the join modal's password field. */
    method EditJoinPassword(value: string)
      modifies this`joinPassword
      ensures joinPassword == value
    {
      joinPassword := value;
    }

    /** The join modal's Cancel button. */
    method CancelJoinModal()
      modifies this`joinModalOpen
      ensures !joinModalOpen
    {
      joinModalOpen := false;
    }

    /** `handleJoinRoom`: the same gate as `hostRoom`; on success the request
        is emitted, the credentials stored and the modal closed, while its
        fields keep their values. */
    method HandleJoinRoom()
      modifies this`emitted, this`storage, this`joinModalOpen
      ensures !Filled(joinRoomName, joinPassword) ==> unchanged(this)
      ensures Filled(joinRoomName, joinPassword) ==>
        && emitted == old(emitted) + [JoinRoomOut(joinRoomName, joinPassword, playerId)]
        && storage == old(storage)[RoomNameKey := joinRoomName][RoomPasswordKey := joinPassword]
        && !joinModalOpen
    {
      if joinRoomName != "" && joinPassword != "" {
        emitted := emitted + [JoinRoomOut(joinRoomName, joinPassword, playerId)];
        storage := storage[RoomNameKey := joinRoomName];
        storage := storage[RoomPasswordKey := joinPassword];
        joinModalOpen := false;
      }
    }

    // ===================== Room view =====================

    /** The room view's effect: listens for `players_in_room`, requests the
        room's roster, listens for `player_joined` and `player_left`, and
        installs the unload guard. */
    method GameEffect()
      requires Valid()
      modifies this`handlers, this`emitted, this`beforeUnloadGuard
      ensures Valid()
      ensures handlers == OnAll(old(handlers), GameRegistrations)
      ensures emitted == old(emitted) + [GetRoomPlayersOut(gameRoom)]
      ensures beforeUnloadGuard
    {
      ghost var h0 := handlers;
      handlers := On(handlers, PlayersInRoomName, GameRoster);
      emitted := emitted + [GetRoomPlayersOut(gameRoom)];
      handlers := On(handlers, PlayerJoinedName, GameRoster);
      handlers := On(handlers, PlayerLeftName, GameRoster);
      beforeUnloadGuard := true;
      GameRegistrationsInOrder(h0);
      GameRegistrationsSymmetric();
      OnAllWellKeyed(h0, GameRegistrations);
    }

    /** The room view's cleanup: removes the three roster event names and
        the unload guard. */
    method GameCleanup()
      requires Valid()
      modifies this`handlers, this`beforeUnloadGuard
      ensures Valid()
      ensures handlers == OffAll(old(handlers), GameNames)
      ensures forall n :: GameRoster !in Listeners(handlers, n)
      ensures !beforeUnloadGuard
    {
      ghost var h0 := handlers;
      handlers := Off(handlers, PlayersInRoomName);
      handlers := Off(handlers, PlayerJoinedName);
      handlers := Off(handlers, PlayerLeftName);
      beforeUnloadGuard := false;
      GameNamesInOrder(h0);
      OffAllWellKeyed(h0, GameNames);
      GameCleanupDetaches(h0);
    }

    /** Mounting the room view at a `/game/:roomName` path: the roster starts
        empty, then the effect runs for the path's room. */
    method GameMount()
      requires Valid()
      requires RoomFromRoute(route).Some?
      modifies this`gameRoom, this`roster, this`handlers, this`emitted, this`beforeUnloadGuard
      ensures Valid()
      ensures gameRoom == RoomFromRoute(route).value && roster == []
      ensures handlers == OnAll(old(handlers), GameRegistrations)
      ensures emitted == old(emitted) + [GetRoomPlayersOut(gameRoom)]
      ensures beforeUnloadGuard
    {
      gameRoom := RoomFromRoute(route).value;
      roster := [];
      GameEffect();
    }

    /** The path changed while the room view stays mounted: when the room
        parameter differs, the cleanup runs and then the effect for the new
        room; the roster is kept until a roster event replaces it. */
    method GameRouteChange()
      requires Valid()
      requires RoomFromRoute(route).Some?
      modifies this`gameRoom, this`handlers, this`emitted, this`beforeUnloadGuard
      ensures Valid()
      ensures RoomFromRoute(route).value == old(gameRoom) ==> unchanged(this)
      ensures RoomFromRoute(route).value != old(gameRoom) ==>
        && gameRoom == RoomFromRoute(route).value
        && handlers == OnAll(OffAll(old(handlers), GameNames), GameRegistrations)
        && emitted == old(emitted) + [GetRoomPlayersOut(gameRoom)]
        && beforeUnloadGuard
    {
      var room := RoomFromRoute(route).value;
      if room != gameRoom {
        GameCleanup();
        gameRoom := room;
        GameEffect();
      }
    }

    /** `handleLeaveRoom`: emits `leave_room` with the room and whatever id
        storage holds (possibly none), then goes to the lobby at once. */
    method HandleLeaveRoom()
      modifies this`emitted, this`route
      ensures emitted == old(emitted) + [LeaveRoomOut(gameRoom, GetItem(storage, PlayerIdKey))]
      ensures route == LobbyRoute
    {
      var storedId := GetItem(storage, PlayerIdKey);
      emitted := emitted + [LeaveRoomOut(gameRoom, storedId)];
      route := LobbyRoute;
    }

    /** An unload attempt: the confirmation text when the guard is
        installed, and no prompt otherwise. */
    method UnloadPrompt() returns (prompt: Option<string>)
      ensures prompt.Some? <==> beforeUnloadGuard
      ensures prompt.Some? ==> prompt.value == UnloadWarning
    {
      prompt := if beforeUnloadGuard then Some(UnloadWarning) else None;
    }

    // ===================== Login view =====================

    /** Mounting the login view: empty user name, real login hidden. */
    method LoginMount()
      modifies this`username, this`showRealLogin
      ensures username == "" && !showRealLogin
    {
      username := "";
      showRealLogin := false;
    }

    /** Typing in the user name field. */
    method EditUsername(value: string)
      modifies this`username
      ensures username == value
    {
      username := value;
    }

    /** `handlePlayAsGuest`, given how the request turns out: a blank name
        only alerts; otherwise the untrimmed name is sent, and a created
        identity is stored (id first, then name) before going to the lobby,
        while a failure only alerts. */
    method HandlePlayAsGuest(outcome: GuestOutcome)
      modifies this`alerts, this`guestRequests, this`storage, this`route
      ensures Trim(username) == "" ==>
        alerts == old(alerts) + [BlankNameAlert] &&
        guestRequests == old(guestRequests) && storage == old(storage) && route == old(route)
      ensures Trim(username) != "" ==> guestRequests == old(guestRequests) + [username]
      ensures Trim(username) != "" && outcome.Created? ==>
        alerts == old(alerts) && route == LobbyRoute &&
        storage == old(storage)[PlayerIdKey := outcome.playerId][PlayerNameKey := outcome.name]
      ensures Trim(username) != "" && outcome.Failed? ==>
        alerts == old(alerts) + [GuestErrorAlert] && storage == old(storage) && route == old(route)
    {
      var blank := Trim(username) == "";
      if blank {
        alerts := alerts + [BlankNameAlert];
        return;
      }
      guestRequests := guestRequests + [username];
      match outcome {
        case Created(id, name) =>
          storage := storage[PlayerIdKey := id];
          storage := storage[PlayerNameKey := name];
          route := LobbyRoute;
        case Failed =>
          alerts := alerts + [GuestErrorAlert];
      }
    }

    /** `handleRealLogin`: a placeholder that only alerts. */
    method HandleRealLogin()
      modifies this`alerts
      ensures alerts == old(alerts) + [RealLoginAlert]
    {
      alerts := alerts + [RealLoginAlert];
    }

    /** `toggleRealLogin`: shows or hides the real login fields. */
    method ToggleRealLogin()
      modifies this`showRealLogin
      ensures showRealLogin == !old(showRealLogin)
    {
      showRealLogin := !showRealLogin;
    }

    // ===================== Inbound events =====================

    /** The lobby's `connect` listener: announces the id it captured. */
    method RunConnectAnnounce(id: string, e: ServerEvent)
      modifies this`emitted
      ensures State() == Apply(old(State()), ConnectAnnounce(id), e)
    {
      if e.Connect? { emitted := emitted + [RegisterPlayerIdOut(id)]; }
    }

    /** The lobby's `update_rooms` listener: replaces the room list. */
    method RunLobbyRooms(e: ServerEvent)
      modifies this`availableRooms
      ensures State() == Apply(old(State()), LobbyRooms, e)
    {
      if e.UpdateRooms? { availableRooms := e.rooms; }
    }

    /** The lobby's `player_joined` / `player_left` listener: replaces the
        preview roster. */
    method RunLobbyPlayers(e: ServerEvent)
      modifies this`lobbyPlayers
      ensures State() == Apply(old(State()), LobbyPlayers, e)
    {
      if e.PlayerJoined? || e.PlayerLeft? { lobbyPlayers := e.players; }
    }

    /** The lobby's `room_error` listener: alerts the server's message. */
    method RunLobbyRoomError(e: ServerEvent)
      modifies this`alerts
      ensures State() == Apply(old(State()), LobbyRoomError, e)
    {
      if e.RoomError? { alerts := alerts + [e.message]; }
    }

    /** The lobby's `join_room_success` listener: navigates to the room. */
    method RunLobbyJoinSuccess(e: ServerEvent)
      modifies this`route
      ensures State() == Apply(old(State()), LobbyJoinSuccess, e)
    {
      if e.JoinRoomSuccess? { route := GameRoute(e.roomName); }
    }

    /** The room view's roster listener: replaces the roster. */
    method RunGameRoster(e: ServerEvent)
      modifies this`roster
      ensures State() == Apply(old(State()), GameRoster, e)
    {
      if e.IsRoster() { roster := e.players; }
    }

    /** One listener closure run on one event. */
    method RunListener(l: Listener, e: ServerEvent)
      modifies this`emitted, this`route, this`alerts, this`availableRooms, this`lobbyPlayers, this`roster
      ensures State() == Apply(old(State()), l, e)
    {
      match l {
        case ConnectAnnounce(id) => RunConnectAnnounce(id, e);
        case LobbyRooms => RunLobbyRooms(e);
        case LobbyPlayers => RunLobbyPlayers(e);
        case LobbyRoomError => RunLobbyRoomError(e);
        case LobbyJoinSuccess => RunLobbyJoinSuccess(e);
        case GameRoster => RunGameRoster(e);
      }
    }

    /** The socket delivers `e`: every listener registered under its name
        runs, in registration order, each to completion. */
    method Deliver(e: ServerEvent)
      modifies this`emitted, this`route, this`alerts, this`availableRooms, this`lobbyPlayers, this`roster
      ensures State() == Step(old(State()), e)
    {
      var ls := Listeners(handlers, e.Name());
      ghost var s0 := State();
      var i := 0;
      while i < |ls|
        invariant 0 <= i <= |ls|
        invariant State() == Dispatch(s0, ls[..i], e)
      {
        DispatchExtend(s0, ls, i, e);
        RunListener(ls[i], e);
        i := i + 1;
      }
      assert ls[..|ls|] == ls;
      assert Step(s0, e) == Dispatch(s0, ls, e);
    }
  }
}
