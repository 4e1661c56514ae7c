/** The lobby view's pure logic: how it resolves the player identity from
    storage, when it redirects to the login view, the non-empty gate in front
    of host and join requests, and the listeners it registers and removes. */
module Lobby {
  import opened Events
  import opened Registry

  type Storage = map<string, string>

  // Storage keys.
  const PlayerIdKey := "playerId"
  const PlayerNameKey := "playerName"
  const RoomNameKey := "roomName"
  const RoomPasswordKey := "roomPassword"

  /** `localStorage.getItem(key)`: the stored string, or null. */
  function GetItem(storage: Storage, key: string): Option<string> {
    if key in storage then Some(storage[key]) else None
  }

  /** JavaScript truthiness of a string-or-null: null and "" are falsy. */
  predicate Truthy(v: Option<string>) {
    v.Some? && v.value != ""
  }

  /** The `playerId` initialiser: reuse a stored non-empty id, otherwise
      store the fresh id and use it. Returns the id and the new storage. */
  function ResolvePlayerId(storage: Storage, freshId: string): (r: (string, Storage))
    ensures Truthy(GetItem(storage, PlayerIdKey)) ==> r == (storage[PlayerIdKey], storage)
    ensures !Truthy(GetItem(storage, PlayerIdKey)) ==> r == (freshId, storage[PlayerIdKey := freshId])
    ensures freshId != "" ==> r.0 != "" && GetItem(r.1, PlayerIdKey) == Some(r.0)
    ensures forall k :: k != PlayerIdKey ==> GetItem(r.1, k) == GetItem(storage, k)
  {
    var saved := GetItem(storage, PlayerIdKey);
    if Truthy(saved) then (saved.value, storage)
    else (freshId, storage[PlayerIdKey := freshId])
  }

  /** The `playerName` initialiser: the stored name, or "" when none. */
  function StoredName(storage: Storage): string {
    var saved := GetItem(storage, PlayerNameKey);
    if Truthy(saved) then saved.value else ""
  }

  /** The redirect effect's condition `!playerId || !playerName`. */
  predicate MustRedirect(playerId: string, playerName: string) {
    playerId == "" || playerName == ""
  }

  /** Since a fresh id is never empty, the lobby redirects to the login view
      exactly when no non-empty player name is stored. */
  lemma RedirectExactlyWhenNameMissing(storage: Storage, freshId: string)
    requires freshId != ""
    ensures
      var (id, storage') := ResolvePlayerId(storage, freshId);
      MustRedirect(id, StoredName(storage')) <==> !Truthy(GetItem(storage, PlayerNameKey))
  {
    var (id, storage') := ResolvePlayerId(storage, freshId);
    assert GetItem(storage', PlayerNameKey) == GetItem(storage, PlayerNameKey);
  }

  /** The gate `roomName && password` in front of host and join requests. */
  predicate Filled(roomName: string, password: string) {
    roomName != "" && password != ""
  }

  /** The listener effect's `socket.on` calls, in order. */
  const LobbyRegistrations: seq<Registration> := [
    (UpdateRoomsName, LobbyRooms),
    (PlayerJoinedName, LobbyPlayers),
    (PlayerLeftName, LobbyPlayers),
    (RoomErrorName, LobbyRoomError),
    (JoinRoomSuccessName, LobbyJoinSuccess)
  ]

  /** The listener effect's cleanup `socket.off` calls, in order. */
  const LobbyNames: seq<string> :=
    [UpdateRoomsName, PlayerJoinedName, PlayerLeftName, RoomErrorName, JoinRoomSuccessName]

  /** The cleanup removes exactly the names the mount registered, and every
      registration puts a listener under a name it handles. */
  lemma LobbyRegistrationsSymmetric()
    ensures NamesOf(LobbyRegistrations) == LobbyNames
    ensures forall i :: 0 <= i < |LobbyRegistrations| ==>
      Handles(LobbyRegistrations[i].1, LobbyRegistrations[i].0)
    ensures ConnectName !in LobbyNames
  {
  }

  /** The registrations, one `socket.on` call after another. */
  lemma LobbyRegistrationsInOrder(h: Registry)
    ensures OnAll(h, LobbyRegistrations) ==
      On(On(On(On(On(h, UpdateRoomsName, LobbyRooms), PlayerJoinedName, LobbyPlayers),
        PlayerLeftName, LobbyPlayers), RoomErrorName, LobbyRoomError), JoinRoomSuccessName, LobbyJoinSuccess)
  {
    var regs := LobbyRegistrations;
    var h1 := On(h, UpdateRoomsName, LobbyRooms);
    var h2 := On(h1, PlayerJoinedName, LobbyPlayers);
    var h3 := On(h2, PlayerLeftName, LobbyPlayers);
    var h4 := On(h3, RoomErrorName, LobbyRoomError);
    var h5 := On(h4, JoinRoomSuccessName, LobbyJoinSuccess);
    assert OnAll(h, regs[..1]) == h1 by {
      assert regs[..0] == [];
      assert regs[0] == (UpdateRoomsName, LobbyRooms);
      OnAllExtend(h, regs, 0);
    }
    assert OnAll(h, regs[..2]) == h2 by {
      assert regs[1] == (PlayerJoinedName, LobbyPlayers);
      OnAllExtend(h, regs, 1);
    }
    assert OnAll(h, regs[..3]) == h3 by {
      assert regs[2] == (PlayerLeftName, LobbyPlayers);
      OnAllExtend(h, regs, 2);
    }
    assert OnAll(h, regs[..4]) == h4 by {
      assert regs[3] == (RoomErrorName, LobbyRoomError);
      OnAllExtend(h, regs, 3);
    }
    assert OnAll(h, regs[..5]) == h5 by {
      assert regs[4] == (JoinRoomSuccessName, LobbyJoinSuccess);
      OnAllExtend(h, regs, 4);
    }
    assert regs[..5] == regs;
  }

  /** The cleanup, one `socket.off` call after another. */
  lemma LobbyNamesInOrder(h: Registry)
    ensures OffAll(h, LobbyNames) ==
      Off(Off(Off(Off(Off(h, UpdateRoomsName), PlayerJoinedName), PlayerLeftName), RoomErrorName), JoinRoomSuccessName)
  {
    var names := LobbyNames;
    var h1 := Off(h, UpdateRoomsName);
    var h2 := Off(h1, PlayerJoinedName);
    var h3 := Off(h2, PlayerLeftName);
    var h4 := Off(h3, RoomErrorName);
    var h5 := Off(h4, JoinRoomSuccessName);
    assert OffAll(h, names[..1]) == h1 by {
      assert names[..0] == [];
      OffAllExtend(h, names, 0);
    }
    assert OffAll(h, names[..2]) == h2 by { OffAllExtend(h, names, 1); }
    assert OffAll(h, names[..3]) == h3 by { OffAllExtend(h, names, 2); }
    assert OffAll(h, names[..4]) == h4 by { OffAllExtend(h, names, 3); }
    assert OffAll(h, names[..5]) == h5 by { OffAllExtend(h, names, 4); }
    assert names[..5] == names;
  }

  /** Once the lobby's cleanup has run on a well-keyed registry, no lobby
      listener is left under any name: a stale lobby cannot react. */
  lemma {:induction false} LobbyCleanupDetaches(h: Registry)
    requires WellKeyed(h)
    ensures forall n, l | l in Listeners(OffAll(h, LobbyNames), n) :: !IsLobbyListener(l)
  {
    var r := OffAll(h, LobbyNames);
    forall n, l | l in Listeners(r, n) ensures !IsLobbyListener(l) {
      assert n !in LobbyNames;
      assert Listeners(r, n) == Listeners(h, n);
      assert Handles(l, n);
    }
  }

  /** A lobby mount followed by its cleanup leaves the registry as if only
      the five names had been dropped, plus the mount's `connect` listener,
      which no cleanup removes: remounting the lobby accumulates them. */
  lemma LobbyMountThenCleanup(h: Registry, playerId: string)
    ensures var withConnect := On(h, ConnectName, ConnectAnnounce(playerId));
      OffAll(OnAll(withConnect, LobbyRegistrations), LobbyNames) == OffAll(withConnect, LobbyNames)
    ensures Listeners(OffAll(OnAll(On(h, ConnectName, ConnectAnnounce(playerId)), LobbyRegistrations), LobbyNames), ConnectName)
      == Listeners(h, ConnectName) + [ConnectAnnounce(playerId)]
  {
    var withConnect := On(h, ConnectName, ConnectAnnounce(playerId));
    LobbyRegistrationsSymmetric();
    forall i | 0 <= i < |LobbyRegistrations| ensures LobbyRegistrations[i].0 in LobbyNames {
      assert LobbyRegistrations[i].0 == NamesOf(LobbyRegistrations)[i];
    }
    OffUndoesOn(withConnect, LobbyRegistrations, LobbyNames);
    OnEffect(h, ConnectName, ConnectAnnounce(playerId), ConnectName);
  }
}
