/** The network message records of MasterServerKit (GameRoomsNetworkProtocol.cs,
    ZoneServerNetworkProtocol.cs, GameServerNetworkProtocol.cs,
    AuthenticationNetworkProtocol.cs, ChatNetworkProtocol.cs, BaseServerNetworkProtocol.cs)
    and the outbox every server appends its sends to.

    Numeric message ids and UNET serialisation are not modelled: a message is
    identified by its constructor. A field a handler never assigns keeps its C#
    default: 0, false, null (`None`) or the first enumeration member. */
module Protocol {
  import opened Common

  // ---- GameRoomsNetworkProtocol.cs

  /** SpawnedGameNetwork (declared in GameRoomsZoneServerAddon.cs): one room of a find response. */
  datatype SpawnedGameNetwork = SpawnedGameNetwork(
    id: int, ip: NullableString, port: int, name: NullableString,
    numPlayers: int, maxPlayers: int, isPrivate: bool, properties: seq<Property>)

  datatype RegisterGameServerMessage = RegisterGameServerMessage(
    ip: NullableString, port: int, name: NullableString, maxPlayers: int,
    password: NullableString, hideWhenFull: bool, properties: seq<Property>)

  datatype RequestCreateGameRoomMessage = RequestCreateGameRoomMessage(
    playerConnectionId: int, name: NullableString, maxPlayers: int,
    password: NullableString, properties: seq<Property>)

  datatype ResponseCreateGameRoomMessage = ResponseCreateGameRoomMessage(
    playerConnectionId: int, success: bool, error: CreateGameRoomError,
    ip: NullableString, port: int)

  datatype ResponseJoinGameRoomMessage = ResponseJoinGameRoomMessage(
    success: bool, error: JoinGameRoomError, ip: NullableString, port: int)

  datatype NotifyGameServerReadyMessage = NotifyGameServerReadyMessage(
    playerConnectionId: int, ip: NullableString, port: int)

  // ---- ZoneServerNetworkProtocol.cs

  datatype ResponseSpawnGameServerMessage = ResponseSpawnGameServerMessage(
    playerConnectionId: int, success: bool, ip: NullableString, port: int)

  // ---- GameServerNetworkProtocol.cs

  datatype RequestGameServerRegistrationMessage = RequestGameServerRegistrationMessage(
    playerConnectionId: int, zoneServerIp: NullableString, zoneServerPort: int,
    name: NullableString, maxPlayers: int, password: NullableString, properties: seq<Property>)

  // ---- AuthenticationNetworkProtocol.cs

  datatype RequestPlayerLoginMessage = RequestPlayerLoginMessage(
    isAnonymous: bool, username: NullableString, password: NullableString)

  datatype ResponsePlayerLoginMessage = ResponsePlayerLoginMessage(
    success: bool, error: LoginError, username: NullableString)

  datatype RequestPlayerRegistrationMessage = RequestPlayerRegistrationMessage(
    email: NullableString, username: NullableString, password: NullableString)

  datatype ResponsePlayerRegistrationMessage = ResponsePlayerRegistrationMessage(
    success: bool, error: RegistrationError)

  // ---- ChatNetworkProtocol.cs

  datatype SendPublicChatTextMessage = SendPublicChatTextMessage(
    channel: NullableString, sender: NullableString, text: NullableString)

  datatype SendPrivateChatTextMessage = SendPrivateChatTextMessage(
    channel: NullableString, sender: NullableString, recipient: NullableString, text: NullableString)

  /** Every message that a component of the model sends, tagged by its message type. */
  datatype Message =
    // game rooms
    | RequestPing
    | ResponsePing(numConnectedPlayers: int)
    | RegisterZoneServer(zoneIp: NullableString, zonePort: int)
    | RegisterGameServer(registration: RegisterGameServerMessage)
    | UnregisterGameServer
    | UnregisterGameServerResponse
    | RequestFindGameRooms(includeProperties: seq<Property>, excludeProperties: seq<Property>)
    | ResponseFindGameRooms(games: seq<SpawnedGameNetwork>)
    | RequestCreateGameRoom(create: RequestCreateGameRoomMessage)
    | ResponseCreateGameRoom(created: ResponseCreateGameRoomMessage)
    | RequestDestroyGameRoom(destroyPort: int)
    | ResponseDestroyGameRoom
    | RequestJoinGameRoom(joinId: int, joinPassword: NullableString)
    | ResponseJoinGameRoom(joined: ResponseJoinGameRoomMessage)
    | RequestPlayNow
    | UpdateGameServerState(numPlayers: int)
    | NotifyGameServerReady(ready: NotifyGameServerReadyMessage)
    // zone server
    | ResponseSpawnGameServer(spawned: ResponseSpawnGameServerMessage)
    // game server
    | RequestGameServerRegistration(gameRegistration: RequestGameServerRegistrationMessage)
    | ResponseGameServerRegistration
    // authentication
    | RequestPlayerLogin(login: RequestPlayerLoginMessage)
    | ResponsePlayerLogin(loginResponse: ResponsePlayerLoginMessage)
    | RequestPlayerRegistration(registrationRequest: RequestPlayerRegistrationMessage)
    | ResponsePlayerRegistration(registrationResponse: ResponsePlayerRegistrationMessage)
    // chat
    | SendPublicChatText(publicText: SendPublicChatTextMessage)
    | SendPrivateChatText(privateText: SendPrivateChatTextMessage)

  /** Where a message goes: over an accepted connection, or over a client this
      component opens to an address, which sends the message once it connects. */
  datatype Endpoint =
    | ToConnection(conn: Connection)
    | ToAddress(ip: NullableString, port: int)

  /** One send. */
  datatype Envelope = Envelope(to: Endpoint, msg: Message)
}
