/** The whole client state as a value, and what an inbound server event does
    to it: the socket runs the listeners registered under the event's name,
    one after another in registration order, each to completion. */
module Inbound {
  import opened Events
  import opened Registry
  import opened Lobby
  import opened Game

  /** Everything the three views, the socket and the browser hold. */
  datatype ClientState = ClientState(
    // browser and socket
    storage: Storage,
    route: string,
    emitted: seq<Outbound>,
    handlers: Registry,
    alerts: seq<string>,
    beforeUnloadGuard: bool,
    guestRequests: seq<string>,
    // lobby view
    playerId: string,
    playerName: string,
    availableRooms: seq<RoomSummary>,
    lobbyPlayers: seq<Player>,
    hostModalOpen: bool,
    hostRoomName: string,
    hostPassword: string,
    joinModalOpen: bool,
    joinRoomName: string,
    joinPassword: string,
    // room view
    gameRoom: string,
    roster: seq<Player>,
    // login view
    username: string,
    showRealLogin: bool)

  /** `r` differs from `s` at most in the six fields a listener can write:
      the emit log, the route, the alerts, the room list and both rosters. */
  predicate OnlyListenerFields(s: ClientState, r: ClientState) {
    && r.storage == s.storage && r.handlers == s.handlers
    && r.beforeUnloadGuard == s.beforeUnloadGuard && r.guestRequests == s.guestRequests
    && r.playerId == s.playerId && r.playerName == s.playerName
    && r.hostModalOpen == s.hostModalOpen && r.hostRoomName == s.hostRoomName
    && r.hostPassword == s.hostPassword && r.joinModalOpen == s.joinModalOpen
    && r.joinRoomName == s.joinRoomName && r.joinPassword == s.joinPassword
    && r.gameRoom == s.gameRoom && r.username == s.username
    && r.showRealLogin == s.showRealLogin
  }

  /** One listener run on one event. A listener only ever receives events of
      the names it is registered under; on any other event it does nothing. */
  function Apply(s: ClientState, l: Listener, e: ServerEvent): ClientState {
    match l
    case ConnectAnnounce(id) =>
      if e.Connect? then s.(emitted := s.emitted + [RegisterPlayerIdOut(id)]) else s
    case LobbyRooms =>
      if e.UpdateRooms? then s.(availableRooms := e.rooms) else s
    case LobbyPlayers =>
      if e.PlayerJoined? || e.PlayerLeft? then s.(lobbyPlayers := e.players) else s
    case LobbyRoomError =>
      if e.RoomError? then s.(alerts := s.alerts + [e.message]) else s
    case LobbyJoinSuccess =>
      if e.JoinRoomSuccess? then s.(route := GameRoute(e.roomName)) else s
    case GameRoster =>
      if e.IsRoster() then s.(roster := e.players) else s
  }

  /** The listeners `ls` run in order on event `e`. */
  function Dispatch(s: ClientState, ls: seq<Listener>, e: ServerEvent): ClientState {
    if ls == [] then s else Apply(Dispatch(s, ls[..|ls| - 1], e), ls[|ls| - 1], e)
  }

  /** Running the listeners one more step. */
  lemma DispatchExtend(s: ClientState, ls: seq<Listener>, k: nat, e: ServerEvent)
    requires k < |ls|
    ensures Dispatch(s, ls[..k + 1], e) == Apply(Dispatch(s, ls[..k], e), ls[k], e)
  {
    assert ls[..k + 1][..k] == ls[..k];
  }

  /** Delivery of one event to whatever is registered under its name. */
  function Step(s: ClientState, e: ServerEvent): ClientState {
    Dispatch(s, Listeners(s.handlers, e.Name()), e)
  }

  /** Delivery of a sequence of events, in order. */
  function DeliverAll(s: ClientState, es: seq<ServerEvent>): ClientState {
    if es == [] then s else Step(DeliverAll(s, es[..|es| - 1]), es[|es| - 1])
  }

  /** Listeners write nothing but the emit log, the route, the alerts, the
      room list and the two rosters: storage, the registry, the forms and
      the guard are out of their reach. */
  lemma {:induction false} DispatchOnlyListenerFields(s: ClientState, ls: seq<Listener>, e: ServerEvent)
    ensures OnlyListenerFields(s, Dispatch(s, ls, e))
  {
    if ls != [] {
      var mid := Dispatch(s, ls[..|ls| - 1], e);
      DispatchOnlyListenerFields(s, ls[..|ls| - 1], e);
      ApplyOnlyListenerFields(mid, ls[|ls| - 1], e);
      assert Dispatch(s, ls, e) == Apply(mid, ls[|ls| - 1], e);
    }
  }

  /** The single-listener case of the above, one closure at a time. */
  lemma ApplyOnlyListenerFields(s: ClientState, l: Listener, e: ServerEvent)
    ensures OnlyListenerFields(s, Apply(s, l, e))
  {
    match l
    case ConnectAnnounce(_) =>
    case LobbyRooms =>
    case LobbyPlayers =>
    case LobbyRoomError =>
    case LobbyJoinSuccess =>
    case GameRoster =>
  }

  /** The same holds for any sequence of delivered events; in particular
      the registry never changes while events are delivered. */
  lemma {:induction false} DeliverAllOnlyListenerFields(s: ClientState, es: seq<ServerEvent>)
    ensures OnlyListenerFields(s, DeliverAll(s, es))
  {
    if es != [] {
      var mid := DeliverAll(s, es[..|es| - 1]);
      DeliverAllOnlyListenerFields(s, es[..|es| - 1]);
      DispatchOnlyListenerFields(mid, Listeners(mid.handlers, es[|es| - 1].Name()), es[|es| - 1]);
    }
  }

  /** The `register_playerId` announcements a run of connect listeners
      makes, one per listener, each with the id it captured. */
  function Announcements(ls: seq<Listener>): seq<Outbound> {
    if ls == [] then []
    else
      var l := ls[|ls| - 1];
      Announcements(ls[..|ls| - 1]) + (if l.ConnectAnnounce? then [RegisterPlayerIdOut(l.playerId)] else [])
  }

  /** `k` copies of `m`. */
  function Repeat(m: string, k: nat): (r: seq<string>)
    ensures |r| == k && forall i :: 0 <= i < k ==> r[i] == m
  {
    if k == 0 then [] else Repeat(m, k - 1) + [m]
  }

  /** How many times `l` occurs in `ls`. */
  function Count(ls: seq<Listener>, l: Listener): (n: nat)
    ensures n == 0 <==> l !in ls
  {
    if ls == [] then 0 else Count(ls[..|ls| - 1], l) + (if ls[|ls| - 1] == l then 1 else 0)
  }

  /** `connect` only emits: one announcement per connect listener, in
      registration order. */
  lemma {:induction false} ConnectOnlyAnnounces(s: ClientState, ls: seq<Listener>)
    ensures Dispatch(s, ls, Connect) == s.(emitted := s.emitted + Announcements(ls))
  {
    if ls != [] {
      var init, l := ls[..|ls| - 1], ls[|ls| - 1];
      var mid := Dispatch(s, init, Connect);
      ConnectOnlyAnnounces(s, init);
      var extra := if l.ConnectAnnounce? then [RegisterPlayerIdOut(l.playerId)] else [];
      assert Dispatch(s, ls, Connect) == Apply(mid, l, Connect);
      assert Apply(mid, l, Connect) == mid.(emitted := mid.emitted + extra);
      assert (s.emitted + Announcements(init)) + extra == s.emitted + Announcements(ls);
    }
  }

  /** `update_rooms` only replaces the room list, wholesale, and only when
      the lobby listens. */
  lemma {:induction false} UpdateRoomsOnlyReplaces(s: ClientState, ls: seq<Listener>, rooms: seq<RoomSummary>)
    ensures Dispatch(s, ls, UpdateRooms(rooms)) ==
      if LobbyRooms in ls then s.(availableRooms := rooms) else s
  {
    if ls != [] {
      UpdateRoomsOnlyReplaces(s, ls[..|ls| - 1], rooms);
    }
  }

  /** A roster event only replaces rosters with its payload: the game
      view's when its listener is present, and for `player_joined` and
      `player_left` the lobby's preview when the lobby listens. */
  lemma {:induction false} RosterEventOnlyReplaces(s: ClientState, ls: seq<Listener>, e: ServerEvent)
    requires e.IsRoster()
    ensures Dispatch(s, ls, e) == s.(
      lobbyPlayers := if LobbyPlayers in ls && !e.PlayersInRoom? then e.players else s.lobbyPlayers,
      roster := if GameRoster in ls then e.players else s.roster)
  {
    if ls != [] {
      RosterEventOnlyReplaces(s, ls[..|ls| - 1], e);
    }
  }

  /** `room_error` only appends the server's message to the alerts, once
      per registered lobby error listener. */
  lemma {:induction false} RoomErrorOnlyAlerts(s: ClientState, ls: seq<Listener>, message: string)
    ensures Dispatch(s, ls, RoomError(message)) ==
      s.(alerts := s.alerts + Repeat(message, Count(ls, LobbyRoomError)))
  {
    if ls != [] {
      var init, l := ls[..|ls| - 1], ls[|ls| - 1];
      var mid := Dispatch(s, init, RoomError(message));
      RoomErrorOnlyAlerts(s, init, message);
      assert Dispatch(s, ls, RoomError(message)) == Apply(mid, l, RoomError(message));
      if l == LobbyRoomError {
        assert Repeat(message, Count(ls, LobbyRoomError))
            == Repeat(message, Count(init, LobbyRoomError)) + [message];
        assert (s.alerts + Repeat(message, Count(init, LobbyRoomError))) + [message]
            == s.alerts + Repeat(message, Count(ls, LobbyRoomError));
      } else {
        assert Count(ls, LobbyRoomError) == Count(init, LobbyRoomError);
      }
    }
  }

  /** `join_room_success` only navigates, to `/game/<roomName>`, and only
      when the lobby listens. */
  lemma {:induction false} JoinSuccessOnlyNavigates(s: ClientState, ls: seq<Listener>, roomName: string)
    ensures Dispatch(s, ls, JoinRoomSuccess(roomName)) ==
      if LobbyJoinSuccess in ls then s.(route := GameRoute(roomName)) else s
  {
    if ls != [] {
      JoinSuccessOnlyNavigates(s, ls[..|ls| - 1], roomName);
    }
  }

  /** The room view's listener is registered under all three roster events. */
  predicate GameSubscribed(h: Registry) {
    GameRoster in Listeners(h, PlayersInRoomName) &&
    GameRoster in Listeners(h, PlayerJoinedName) &&
    GameRoster in Listeners(h, PlayerLeftName)
  }

  /** The payload of the last roster event in `es`, if any. */
  function LastRoster(es: seq<ServerEvent>): (p: Option<seq<Player>>)
    ensures p.None? <==> forall i :: 0 <= i < |es| ==> !es[i].IsRoster()
  {
    if es == [] then None
    else if es[|es| - 1].IsRoster() then Some(es[|es| - 1].players)
    else LastRoster(es[..|es| - 1])
  }

  /** Last write wins: while the room view listens, after any sequence of
      events the roster is the payload of the last `players_in_room`,
      `player_joined` or `player_left` processed, whatever came before it;
      with no roster event it is untouched. */
  lemma {:induction false} RosterIsLastSnapshot(s: ClientState, es: seq<ServerEvent>)
    requires GameSubscribed(s.handlers)
    ensures DeliverAll(s, es).roster ==
      match LastRoster(es) case Some(p) => p case None => s.roster
  {
    if es != [] {
      var init, e := es[..|es| - 1], es[|es| - 1];
      RosterIsLastSnapshot(s, init);
      DeliverAllOnlyListenerFields(s, init);
      var mid := DeliverAll(s, init);
      var ls := Listeners(mid.handlers, e.Name());
      if e.IsRoster() {
        RosterEventOnlyReplaces(mid, ls, e);
      } else {
        assert Dispatch(mid, ls, e).roster == mid.roster by {
          DispatchKeepsRoster(mid, ls, e);
        }
      }
    }
  }

  /** Events that are not roster events never touch the roster. */
  lemma {:induction false} DispatchKeepsRoster(s: ClientState, ls: seq<Listener>, e: ServerEvent)
    requires !e.IsRoster() || GameRoster !in ls
    ensures Dispatch(s, ls, e).roster == s.roster
  {
    if ls != [] {
      DispatchKeepsRoster(s, ls[..|ls| - 1], e);
    }
  }

  /** After the room view's cleanup no listener writes the roster: no
      sequence of events changes it. */
  lemma {:induction false} DetachedRosterFrozen(s: ClientState, es: seq<ServerEvent>)
    requires forall n :: GameRoster !in Listeners(s.handlers, n)
    ensures DeliverAll(s, es).roster == s.roster
  {
    if es != [] {
      var init, e := es[..|es| - 1], es[|es| - 1];
      DetachedRosterFrozen(s, init);
      DeliverAllOnlyListenerFields(s, init);
      var mid := DeliverAll(s, init);
      DispatchKeepsRoster(mid, Listeners(mid.handlers, e.Name()), e);
    }
  }

  /** Listeners other than the lobby's never touch the lobby's room list,
      preview roster, alerts or route. */
  lemma {:induction false} DispatchKeepsLobby(s: ClientState, ls: seq<Listener>, e: ServerEvent)
    requires forall l | l in ls :: !IsLobbyListener(l)
    ensures var r := Dispatch(s, ls, e);
      r.availableRooms == s.availableRooms && r.lobbyPlayers == s.lobbyPlayers &&
      r.alerts == s.alerts && r.route == s.route
  {
    if ls != [] {
      DispatchKeepsLobby(s, ls[..|ls| - 1], e);
      assert !IsLobbyListener(ls[|ls| - 1]);
    }
  }

  /** After the lobby's cleanup no event sequence changes the room list, the
      preview roster, the alerts or the route: a stale lobby cannot navigate. */
  lemma {:induction false} DetachedLobbyFrozen(s: ClientState, es: seq<ServerEvent>)
    requires forall n, l | l in Listeners(s.handlers, n) :: !IsLobbyListener(l)
    ensures var r := DeliverAll(s, es);
      r.availableRooms == s.availableRooms && r.lobbyPlayers == s.lobbyPlayers &&
      r.alerts == s.alerts && r.route == s.route
  {
    if es != [] {
      var init, e := es[..|es| - 1], es[|es| - 1];
      DetachedLobbyFrozen(s, init);
      DeliverAllOnlyListenerFields(s, init);
      var mid := DeliverAll(s, init);
      DispatchKeepsLobby(mid, Listeners(mid.handlers, e.Name()), e);
    }
  }
}
