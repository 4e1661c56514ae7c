/** The event contract between the client and the game server: the payload
    types, the events the server pushes, the events the client emits, and the
    listener closures the three views register on the shared socket. */
module Events {

  datatype Option<+T> = None | Some(value: T)

  /** One entry of the room directory (`{name, player_count}`). */
  datatype RoomSummary = RoomSummary(name: string, playerCount: int)

  /** One roster entry (`{name, score}`). */
  datatype Player = Player(name: string, score: int)

  // Wire names of the events.
  const ConnectName := "connect"
  const UpdateRoomsName := "update_rooms"
  const PlayerJoinedName := "player_joined"
  const PlayerLeftName := "player_left"
  const PlayersInRoomName := "players_in_room"
  const RoomErrorName := "room_error"
  const JoinRoomSuccessName := "join_room_success"

  /** Events pushed by the server, with their payloads. */
  datatype ServerEvent =
    | Connect
    | UpdateRooms(rooms: seq<RoomSummary>)
    | PlayerJoined(players: seq<Player>)
    | PlayerLeft(players: seq<Player>)
    | PlayersInRoom(players: seq<Player>)
    | JoinRoomSuccess(roomName: string)
    | RoomError(message: string)
  {
    /** The three events that carry a full roster snapshot. */
    predicate IsRoster() {
      PlayerJoined? || PlayerLeft? || PlayersInRoom?
    }

    function Name(): string {
      match this
      case Connect => ConnectName
      case UpdateRooms(_) => UpdateRoomsName
      case PlayerJoined(_) => PlayerJoinedName
      case PlayerLeft(_) => PlayerLeftName
      case PlayersInRoom(_) => PlayersInRoomName
      case JoinRoomSuccess(_) => JoinRoomSuccessName
      case RoomError(_) => RoomErrorName
    }
  }

  /** Events emitted by the client, with their payloads. */
  datatype Outbound =
    | RegisterPlayerIdOut(playerId: string)
    | GetRoomsOut
    | HostRoomOut(roomName: string, password: string, playerId: string)
    | JoinRoomOut(roomName: string, password: string, playerId: string)
    | GetRoomPlayersOut(roomName: string)
    | LeaveRoomOut(roomName: string, storedPlayerId: Option<string>)

  /** The closures the views hand to `socket.on`. */
  datatype Listener =
    | ConnectAnnounce(playerId: string)  // lobby: announce the id captured at mount
    | LobbyRooms                         // lobby: replace the room list
    | LobbyPlayers                       // lobby: replace the preview roster
    | LobbyRoomError                     // lobby: alert the server's message
    | LobbyJoinSuccess                   // lobby: navigate into the room
    | GameRoster                         // game view: replace the roster

  /** The event names a listener is written for. */
  predicate Handles(l: Listener, name: string) {
    match l
    case ConnectAnnounce(_) => name == ConnectName
    case LobbyRooms => name == UpdateRoomsName
    case LobbyPlayers => name == PlayerJoinedName || name == PlayerLeftName
    case LobbyRoomError => name == RoomErrorName
    case LobbyJoinSuccess => name == JoinRoomSuccessName
    case GameRoster =>
      name == PlayersInRoomName || name == PlayerJoinedName || name == PlayerLeftName
  }

  predicate IsLobbyListener(l: Listener) {
    l == LobbyRooms || l == LobbyPlayers || l == LobbyRoomError || l == LobbyJoinSuccess
  }
}
