/** The room view's pure logic: the route that carries the room name, the
    roster listeners it registers and removes, and the unload warning. */
module Game {
  import opened Events
  import opened Registry

  const LobbyRoute := "/"
  const LoginRoute := "/login"
  const GamePrefix := "/game/"

  /** The path the lobby navigates to on `join_room_success`. */
  function GameRoute(roomName: string): string {
    GamePrefix + roomName
  }

  /** The `:roomName` parameter of a path matching `/game/:roomName`
      (a non-empty segment without `/`), or None when it does not match. */
  function RoomFromRoute(p: string): (r: Option<string>)
    ensures r.Some? ==> r.value != "" && '/' !in r.value && p == GameRoute(r.value)
  {
    if |p| > |GamePrefix| && p[..|GamePrefix|] == GamePrefix && '/' !in p[|GamePrefix|..]
    then Some(p[|GamePrefix|..])
    else None
  }

  /** The route the lobby navigates to leads back to the room it names,
      for every room name that is a single non-empty path segment. */
  lemma RouteRoundTrip(roomName: string)
    requires roomName != "" && '/' !in roomName
    ensures RoomFromRoute(GameRoute(roomName)) == Some(roomName)
  {
    var p := GameRoute(roomName);
    assert p[|GamePrefix|..] == roomName;
  }

  /** The lobby, login and game paths never match one another. */
  lemma RoutesDistinct(roomName: string)
    ensures RoomFromRoute(LobbyRoute) == None && RoomFromRoute(LoginRoute) == None
    ensures GameRoute(roomName) != LobbyRoute && GameRoute(roomName) != LoginRoute
  {
    assert GameRoute(roomName)[1] == 'g';
  }

  /** The mount effect's `socket.on` calls, in order. */
  const GameRegistrations: seq<Registration> := [
    (PlayersInRoomName, GameRoster),
    (PlayerJoinedName, GameRoster),
    (PlayerLeftName, GameRoster)
  ]

  /** The cleanup's `socket.off` calls, in order. */
  const GameNames: seq<string> := [PlayersInRoomName, PlayerJoinedName, PlayerLeftName]

  /** The cleanup removes exactly the names the mount registered, and every
      registration puts the roster listener under a name it handles. */
  lemma GameRegistrationsSymmetric()
    ensures NamesOf(GameRegistrations) == GameNames
    ensures forall i :: 0 <= i < |GameRegistrations| ==>
      Handles(GameRegistrations[i].1, GameRegistrations[i].0)
  {
  }

  /** The registrations, one `socket.on` call after another. */
  lemma GameRegistrationsInOrder(h: Registry)
    ensures OnAll(h, GameRegistrations) ==
      On(On(On(h, PlayersInRoomName, GameRoster), PlayerJoinedName, GameRoster), PlayerLeftName, GameRoster)
  {
    var regs := GameRegistrations;
    assert regs[..0] == [];
    OnAllExtend(h, regs, 0);
    OnAllExtend(h, regs, 1);
    OnAllExtend(h, regs, 2);
    assert regs[..3] == regs;
  }

  /** The cleanup, one `socket.off` call after another. */
  lemma GameNamesInOrder(h: Registry)
    ensures OffAll(h, GameNames) == Off(Off(Off(h, PlayersInRoomName), PlayerJoinedName), PlayerLeftName)
  {
    var names := GameNames;
    assert names[..0] == [];
    OffAllExtend(h, names, 0);
    OffAllExtend(h, names, 1);
    OffAllExtend(h, names, 2);
    assert names[..3] == names;
  }

  /** The text the unload guard sets as the prompt's return value. */
  const UnloadWarning := "If you refresh this page, you will automatically leave the room. Continue?"

  /** Once the room view's cleanup has run on a well-keyed registry, the
      roster listener is gone from every name. */
  lemma {:induction false} GameCleanupDetaches(h: Registry)
    requires WellKeyed(h)
    ensures forall n :: GameRoster !in Listeners(OffAll(h, GameNames), n)
  {
    var r := OffAll(h, GameNames);
    forall n ensures GameRoster !in Listeners(r, n) {
      if n !in GameNames {
        assert !Handles(GameRoster, n);
        assert Listeners(r, n) == Listeners(h, n);
      }
    }
  }

  /** A room view mount followed by its cleanup leaves the registry as if
      the three roster names had only been dropped: nothing of the view
      survives its unmount. */
  lemma GameMountThenCleanup(h: Registry)
    ensures OffAll(OnAll(h, GameRegistrations), GameNames) == OffAll(h, GameNames)
  {
    GameRegistrationsSymmetric();
    forall i | 0 <= i < |GameRegistrations| ensures GameRegistrations[i].0 in GameNames {
      assert GameRegistrations[i].0 == NamesOf(GameRegistrations)[i];
    }
    OffUndoesOn(h, GameRegistrations, GameNames);
  }
}
