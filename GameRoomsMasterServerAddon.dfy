/** GameRoomsMasterServerAddon.cs: the master server's room directory. It keeps the
    registered zone servers, the registered game servers (rooms), the players waiting for
    a room they asked to create, and the counter that numbers rooms. Players find, join,
    create or "play now"; zone and game servers register, unregister and report their
    player counts.

    A create request is asynchronous in the source (a client connects to the selected
    zone, sends the request and later receives the spawn response). Here each step is an
    event method: the request records a pending zone connection, and connection success,
    connection failure and the zone's response are separate events. */
module GameRoomsMasterServerAddon {
  import opened Common
  import opened Protocol
  import opened BaseServer

  /** RegisteredZoneServer: a zone server's connection and the address it listens on. */
  datatype RegisteredZoneServer = RegisteredZoneServer(connection: Connection, ip: NullableString, port: int)

  /** RegisteredGameServer: one room as the master knows it. */
  datatype RegisteredGameServer = RegisteredGameServer(
    connection: Connection, id: int, ip: NullableString, port: int, name: NullableString,
    numPlayers: int, maxPlayers: int, password: NullableString, hideWhenFull: bool,
    properties: seq<Property>)

  /** A create request waiting for its connection to the selected zone server. */
  datatype ZoneRequest = ZoneRequest(player: Connection, request: RequestCreateGameRoomMessage, zone: RegisteredZoneServer)

  // ---- C# int arithmetic for the room counter

  const Int32Min: int := -0x8000_0000
  const Int32Max: int := 0x7FFF_FFFF

  /** `x++` on a C# int in an unchecked context: wraps from Int32Max to Int32Min. */
  function Int32Succ(x: int): (r: int)
    requires Int32Min <= x <= Int32Max
    ensures Int32Min <= r <= Int32Max
    ensures x < Int32Max ==> r == x + 1
    ensures x == Int32Max ==> r == Int32Min
  {
    if x == Int32Max then Int32Min else x + 1
  }

  /** string.IsNullOrEmpty. */
  predicate IsNullOrEmpty(s: NullableString) {
    s.None? || s.value == []
  }

  // ---- Searches over the lists (List.Find, first match)

  /** `registeredZoneServers.Find(x => x.connection == connection)`. */
  function IndexOfZoneServer(zones: seq<RegisteredZoneServer>, conn: Connection): (r: Option<nat>)
    ensures r.None? <==> forall j :: 0 <= j < |zones| ==> zones[j].connection != conn
    ensures r.Some? ==> r.value < |zones| && zones[r.value].connection == conn
                        && forall j :: 0 <= j < r.value ==> zones[j].connection != conn
  {
    if |zones| == 0 then None
    else if zones[0].connection == conn then Some(0)
    else match IndexOfZoneServer(zones[1..], conn)
      case None => None
      case Some(i) => Some(i + 1)
  }

  /** `registeredGameServers.Find(x => x.connection == connection)`. */
  function IndexOfGameServer(servers: seq<RegisteredGameServer>, conn: Connection): (r: Option<nat>)
    ensures r.None? <==> forall j :: 0 <= j < |servers| ==> servers[j].connection != conn
    ensures r.Some? ==> r.value < |servers| && servers[r.value].connection == conn
                        && forall j :: 0 <= j < r.value ==> servers[j].connection != conn
  {
    if |servers| == 0 then None
    else if servers[0].connection == conn then Some(0)
    else match IndexOfGameServer(servers[1..], conn)
      case None => None
      case Some(i) => Some(i + 1)
  }

  /** `registeredGameServers.Find(x => x.id == id)`. */
  function IndexOfGameServerId(servers: seq<RegisteredGameServer>, id: int): (r: Option<nat>)
    ensures r.None? <==> forall j :: 0 <= j < |servers| ==> servers[j].id != id
    ensures r.Some? ==> r.value < |servers| && servers[r.value].id == id
                        && forall j :: 0 <= j < r.value ==> servers[j].id != id
  {
    if |servers| == 0 then None
    else if servers[0].id == id then Some(0)
    else match IndexOfGameServerId(servers[1..], id)
      case None => None
      case Some(i) => Some(i + 1)
  }

  /** `awaitingPlayerConnections.Find(x => x.connectionId == connectionId)`: the match is on
      the transport's integer id, not on the connection itself. */
  function IndexOfConnectionId(awaiting: seq<Connection>, connectionId: int): (r: Option<nat>)
    ensures r.None? <==> forall j :: 0 <= j < |awaiting| ==> awaiting[j].connectionId != connectionId
    ensures r.Some? ==> r.value < |awaiting| && awaiting[r.value].connectionId == connectionId
                        && forall j :: 0 <= j < r.value ==> awaiting[j].connectionId != connectionId
  {
    if |awaiting| == 0 then None
    else if awaiting[0].connectionId == connectionId then Some(0)
    else match IndexOfConnectionId(awaiting[1..], connectionId)
      case None => None
      case Some(i) => Some(i + 1)
  }

  /** A room that play-now may send a player to: no password and a free slot. */
  predicate IsOpenPublicGame(server: RegisteredGameServer) {
    IsNullOrEmpty(server.password) && server.numPlayers < server.maxPlayers
  }

  /** `registeredGameServers.Find(x => string.IsNullOrEmpty(x.password) && x.numPlayers < x.maxPlayers)`. */
  function IndexOfOpenPublicGame(servers: seq<RegisteredGameServer>): (r: Option<nat>)
    ensures r.None? <==> forall j :: 0 <= j < |servers| ==> !IsOpenPublicGame(servers[j])
    ensures r.Some? ==> r.value < |servers| && IsOpenPublicGame(servers[r.value])
                        && forall j :: 0 <= j < r.value ==> !IsOpenPublicGame(servers[j])
  {
    if |servers| == 0 then None
    else if IsOpenPublicGame(servers[0]) then Some(0)
    else match IndexOfOpenPublicGame(servers[1..])
      case None => None
      case Some(i) => Some(i + 1)
  }

  // ---- Find filters

  /** ServerIsHiddenFromMatchmaking: a full room that asked to be hidden when full. Full
      means at least maxPlayers, so an overfull room is hidden too. */
  predicate ServerIsHiddenFromMatchmaking(server: RegisteredGameServer): (r: bool)
    ensures server.numPlayers < server.maxPlayers ==> !r
    ensures !server.hideWhenFull ==> !r
    ensures server.hideWhenFull && server.numPlayers >= server.maxPlayers ==> r
  {
    server.hideWhenFull && server.numPlayers >= server.maxPlayers
  }

  /** Every filter property appears (same name and value) among the room's properties. */
  predicate IncludesAll(roomProperties: seq<Property>, filters: seq<Property>) {
    forall p :: p in filters ==> p in roomProperties
  }

  /** No filter property appears (same name and value) among the room's properties. */
  predicate ExcludesAll(roomProperties: seq<Property>, filters: seq<Property>) {
    forall p :: p in filters ==> p !in roomProperties
  }

  /** The three conditions a room must meet to be listed by a find request. */
  predicate IsListed(server: RegisteredGameServer, includeProperties: seq<Property>, excludeProperties: seq<Property>) {
    !ServerIsHiddenFromMatchmaking(server) && IncludesAll(server.properties, includeProperties) && ExcludesAll(server.properties, excludeProperties)
  }

  /** The room as listed in a find response; a room is private when it has a non-empty password. */
  function ToNetwork(server: RegisteredGameServer): (r: SpawnedGameNetwork)
    ensures r.isPrivate <==> server.password.Some? && |server.password.value| > 0
    ensures r.id == server.id && r.ip == server.ip && r.port == server.port && r.name == server.name
    ensures r.numPlayers == server.numPlayers && r.maxPlayers == server.maxPlayers
    ensures r.properties == server.properties
  {
    SpawnedGameNetwork(server.id, server.ip, server.port, server.name, server.numPlayers,
                       server.maxPlayers, !IsNullOrEmpty(server.password), server.properties)
  }

  /** The find response: the listed rooms, in registration order. */
  function Listing(servers: seq<RegisteredGameServer>, includeProperties: seq<Property>, excludeProperties: seq<Property>)
    : (r: seq<SpawnedGameNetwork>)
    ensures |r| <= |servers|
    ensures forall g :: g in r ==> exists s :: s in servers && IsListed(s, includeProperties, excludeProperties) && g == ToNetwork(s)
    ensures forall s :: s in servers && IsListed(s, includeProperties, excludeProperties) ==> ToNetwork(s) in r
  {
    if |servers| == 0 then []
    else
      var last := servers[|servers| - 1];
      var front := servers[..|servers| - 1];
      assert forall s :: s in servers ==> s in front || s == last;
      Listing(front, includeProperties, excludeProperties) + (if IsListed(last, includeProperties, excludeProperties) then [ToNetwork(last)] else [])
  }

  /** Order: a room registered later is listed after every room registered before it. */
  lemma {:induction false} ListingOfConcatenation(a: seq<RegisteredGameServer>, b: seq<RegisteredGameServer>,
                                                  includeProperties: seq<Property>, excludeProperties: seq<Property>)
    ensures Listing(a + b, includeProperties, excludeProperties) == Listing(a, includeProperties, excludeProperties) + Listing(b, includeProperties, excludeProperties)
    decreases |b|
  {
    if |b| == 0 {
      assert a + b == a;
    } else {
      var b' := b[..|b| - 1];
      assert (a + b)[..|a + b| - 1] == a + b';
      assert (a + b)[|a + b| - 1] == b[|b| - 1];
      ListingOfConcatenation(a, b', includeProperties, excludeProperties);
    }
  }

  // ---- Join

  /** The join response for a room id and a supplied password. An unknown id is GameExpired.
      A known room refuses a wrong password (when it has one) with InvalidPassword and an
      exactly full room with GameFull; the fullness check is made second, so a room that is
      both wins with GameFull. Only a success carries the room's address. */
  function JoinResponse(servers: seq<RegisteredGameServer>, id: int, password: NullableString)
    : (r: ResponseJoinGameRoomMessage)
    ensures IndexOfGameServerId(servers, id).None? ==> r == ResponseJoinGameRoomMessage(false, GameExpired, None, 0)
    ensures IndexOfGameServerId(servers, id).Some? ==>
              var room := servers[IndexOfGameServerId(servers, id).value];
              (r.success <==> (IsNullOrEmpty(room.password) || password == room.password)
                              && room.numPlayers != room.maxPlayers)
              && (room.numPlayers == room.maxPlayers ==> r.error == GameFull)
              && (room.numPlayers != room.maxPlayers && !IsNullOrEmpty(room.password) && password != room.password
                  ==> r.error == InvalidPassword)
              && (r.success ==> r.ip == room.ip && r.port == room.port)
    ensures !r.success ==> r.ip == None && r.port == 0
  {
    match IndexOfGameServerId(servers, id)
    case None => ResponseJoinGameRoomMessage(false, GameExpired, None, 0)
    case Some(i) =>
      var room := servers[i];
      var response := ResponseJoinGameRoomMessage(true, GameFull, None, 0);
      var response := if !IsNullOrEmpty(room.password) && password != room.password
                      then response.(success := false, error := InvalidPassword) else response;
      var response := if room.numPlayers == room.maxPlayers
                      then response.(success := false, error := GameFull) else response;
      if response.success then response.(ip := room.ip, port := room.port) else response
  }

  /** Fullness for joining is exact equality: a room whose count has passed its maximum
      still admits a player with the right password, while find hides it (when asked to). */
  lemma {:induction false} OverfullRoomStillJoinable(servers: seq<RegisteredGameServer>, i: nat)
    requires i < |servers| && IndexOfGameServerId(servers, servers[i].id) == Some(i)
    requires IsNullOrEmpty(servers[i].password) && servers[i].numPlayers > servers[i].maxPlayers
    ensures JoinResponse(servers, servers[i].id, None).success
    ensures servers[i].hideWhenFull ==> !IsListed(servers[i], [], [])
  {
  }

  // ---- Create and ready resolution

  /** The response a waiting player receives when its room could not be created. */
  const CreateFailed: ResponseCreateGameRoomMessage := ResponseCreateGameRoomMessage(0, false, ZoneServerUnavailable, None, 0)

  /** The waiting list after answering a notification for `connectionId`, and the sends. */
  datatype Resolution = Resolution(awaiting: seq<Connection>, sends: seq<Envelope>)

  /** Answers the first waiting connection with that connectionId, if any, and removes it
      from the waiting list; nothing happens when no waiting connection has that id. */
  function Answer(awaiting: seq<Connection>, connectionId: int, response: ResponseCreateGameRoomMessage): (r: Resolution)
    ensures |r.awaiting| + |r.sends| == |awaiting|
    ensures IndexOfConnectionId(awaiting, connectionId).None? ==> r == Resolution(awaiting, [])
    ensures IndexOfConnectionId(awaiting, connectionId).Some? ==>
              var i := IndexOfConnectionId(awaiting, connectionId).value;
              r.awaiting == RemoveAt(awaiting, i)
              && r.sends == [Envelope(ToConnection(awaiting[i]), ResponseCreateGameRoom(response))]
  {
    match IndexOfConnectionId(awaiting, connectionId)
    case None => Resolution(awaiting, [])
    case Some(i) => Resolution(RemoveAt(awaiting, i), [Envelope(ToConnection(awaiting[i]), ResponseCreateGameRoom(response))])
  }

  /** The spawn response from a zone: a failure answers the waiting player whose id the
      response carries; a success is left to the room's ready notification. */
  function ResolveSpawnResponse(awaiting: seq<Connection>, response: ResponseSpawnGameServerMessage): (r: Resolution)
    ensures response.success ==> r == Resolution(awaiting, [])
    ensures !response.success ==> r == Answer(awaiting, response.playerConnectionId, CreateFailed)
  {
    if response.success then Resolution(awaiting, [])
    else Answer(awaiting, response.playerConnectionId, CreateFailed)
  }

  /** A room's ready notification answers the waiting player it names with a success that
      carries the room's address. */
  function ResolveReady(awaiting: seq<Connection>, ready: NotifyGameServerReadyMessage): (r: Resolution)
    ensures r == Answer(awaiting, ready.playerConnectionId,
                        ResponseCreateGameRoomMessage(0, true, ZoneServerUnavailable, ready.ip, ready.port))
  {
    Answer(awaiting, ready.playerConnectionId, ResponseCreateGameRoomMessage(0, true, ZoneServerUnavailable, ready.ip, ready.port))
  }

  /** A waiting player is answered exactly once: after its notification it is no longer
      waiting (when no other waiting connection shares its id), and a repeated notification
      sends nothing. */
  lemma {:induction false} ReadyAnswersOnce(awaiting: seq<Connection>, i: nat, ready: NotifyGameServerReadyMessage)
    requires i < |awaiting| && ready.playerConnectionId == awaiting[i].connectionId
    requires forall j :: 0 <= j < |awaiting| && j != i ==> awaiting[j].connectionId != awaiting[i].connectionId
    ensures var first := ResolveReady(awaiting, ready);
            first.sends == [Envelope(ToConnection(awaiting[i]), ResponseCreateGameRoom(
                                       ResponseCreateGameRoomMessage(0, true, ZoneServerUnavailable, ready.ip, ready.port)))]
            && ResolveReady(first.awaiting, ready).sends == []
  {
    var first := ResolveReady(awaiting, ready);
    assert IndexOfConnectionId(awaiting, ready.playerConnectionId) == Some(i);
    forall j | 0 <= j < |first.awaiting| ensures first.awaiting[j].connectionId != ready.playerConnectionId {
      if j >= i {
        assert first.awaiting[j] == awaiting[j + 1];
      }
    }
  }

  // ---- Room ids

  /** The ids handed out so far are strictly increasing and all below the counter. */
  ghost predicate IdHistory(issued: seq<int>, counter: int) {
    (forall i, j :: 0 <= i < j < |issued| ==> issued[i] < issued[j])
    && (forall i :: 0 <= i < |issued| ==> issued[i] < counter)
  }

  /** Before the counter wraps, a new room's id was never handed out before, and the
      history stays strictly increasing. */
  lemma {:induction false} NextIdIsFresh(issued: seq<int>, counter: int)
    requires IdHistory(issued, counter)
    requires Int32Min <= counter < Int32Max
    ensures counter !in issued
    ensures IdHistory(issued + [counter], Int32Succ(counter))
  {
    assert forall i :: 0 <= i < |issued| ==> issued[i] != counter;
  }

  class GameRoomsMasterServerAddon {
    const baseServer: BaseServer
    var registeredZoneServers: seq<RegisteredZoneServer>
    var registeredGameServers: seq<RegisteredGameServer>
    var awaitingPlayerConnections: seq<Connection>
    var gameServerId: int
    /** Every id handed out so far, in order. */
    ghost var issuedIds: seq<int>
    /** Create requests waiting for their connection to a zone server. */
    var zoneRequests: seq<ZoneRequest>
    var outbox: seq<Envelope>

    /** The ids of the registered rooms were all handed out by this add-on. */
    ghost predicate Valid()
      reads this
    {
      Int32Min <= gameServerId <= Int32Max
      && forall k :: 0 <= k < |registeredGameServers| ==> registeredGameServers[k].id in issuedIds
    }

    constructor (baseServer: BaseServer)
      ensures Valid() && IdHistory(issuedIds, gameServerId)
      ensures this.baseServer == baseServer
      ensures registeredZoneServers == [] && registeredGameServers == [] && awaitingPlayerConnections == []
      ensures gameServerId == 0 && zoneRequests == [] && outbox == []
    {
      this.baseServer := baseServer;
      registeredZoneServers := [];
      registeredGameServers := [];
      awaitingPlayerConnections := [];
      gameServerId := 0;
      issuedIds := [];
      zoneRequests := [];
      outbox := [];
    }

    /** OnPingRequested: replies with the number of players connected to the master. */
    method OnPingRequested(conn: Connection)
      modifies this`outbox
      ensures outbox == old(outbox) + [Envelope(ToConnection(conn), ResponsePing(|baseServer.players|))]
    {
      outbox := outbox + [Envelope(ToConnection(conn), ResponsePing(|baseServer.players|))];
    }

    /** ServerIncludesProperties: every filter property is found among the room's. */
    static method ServerIncludesProperties(server: RegisteredGameServer, properties: seq<Property>) returns (r: bool)
      ensures r <==> IncludesAll(server.properties, properties)
    {
      for k := 0 to |properties|
        invariant IncludesAll(server.properties, properties[..k])
      {
        if properties[k] !in server.properties {
          assert properties[k] in properties;
          return false;
        }
        assert properties[..k + 1] == properties[..k] + [properties[k]];
      }
      assert properties[..|properties|] == properties;
      return true;
    }

    /** ServerExcludesProperties: no filter property is found among the room's. */
    static method ServerExcludesProperties(server: RegisteredGameServer, properties: seq<Property>) returns (r: bool)
      ensures r <==> ExcludesAll(server.properties, properties)
    {
      for k := 0 to |properties|
        invariant ExcludesAll(server.properties, properties[..k])
      {
        if properties[k] in server.properties {
          assert properties[k] in properties;
          return false;
        }
        assert properties[..k + 1] == properties[..k] + [properties[k]];
      }
      assert properties[..|properties|] == properties;
      return true;
    }

    /** The foreach of OnFindGameRoomsRequested: the listed rooms in registration order. */
    static method FindGames(servers: seq<RegisteredGameServer>, includeProperties: seq<Property>, excludeProperties: seq<Property>)
      returns (games: seq<SpawnedGameNetwork>)
      ensures games == Listing(servers, includeProperties, excludeProperties)
    {
      games := [];
      for k := 0 to |servers|
        invariant games == Listing(servers[..k], includeProperties, excludeProperties)
      {
        var server := servers[k];
        var included := ServerIncludesProperties(server, includeProperties);
        var excluded := ServerExcludesProperties(server, excludeProperties);
        assert servers[..k + 1][..k] == servers[..k];
        if !ServerIsHiddenFromMatchmaking(server) && included && excluded {
          games := games + [ToNetwork(server)];
        }
      }
      assert servers[..|servers|] == servers;
    }

    /** OnFindGameRoomsRequested: one response listing the matching rooms. */
    method OnFindGameRoomsRequested(conn: Connection, includeProperties: seq<Property>, excludeProperties: seq<Property>)
      modifies this`outbox
      ensures outbox == old(outbox) + [Envelope(ToConnection(conn), ResponseFindGameRooms(Listing(registeredGameServers, includeProperties, excludeProperties)))]
    {
      var games := FindGames(registeredGameServers, includeProperties, excludeProperties);
      outbox := outbox + [Envelope(ToConnection(conn), ResponseFindGameRooms(games))];
    }

    /** OnJoinGameRoomRequested: one response, as JoinResponse decides. */
    method OnJoinGameRoomRequested(conn: Connection, id: int, password: NullableString)
      modifies this`outbox
      ensures outbox == old(outbox) + [Envelope(ToConnection(conn), ResponseJoinGameRoom(JoinResponse(registeredGameServers, id, password)))]
    {
      var responseMsg := JoinResponse(registeredGameServers, id, password);
      outbox := outbox + [Envelope(ToConnection(conn), ResponseJoinGameRoom(responseMsg))];
    }

    /** SelectZoneServer: a zone picked at random (Random.Range(0, count)); none when no
        zone is registered. */
    method SelectZoneServer() returns (zone: Option<RegisteredZoneServer>)
      ensures zone.None? <==> |registeredZoneServers| == 0
      ensures zone.Some? ==> zone.value in registeredZoneServers
    {
      if |registeredZoneServers| > 0 {
        var idx :| 0 <= idx < |registeredZoneServers|;
        return Some(registeredZoneServers[idx]);
      }
      return None;
    }

    /** CreateGameRoom: with no zone registered, one failure (ZoneServerUnavailable) to the
        player; otherwise a connection to a registered zone is started, and nothing is sent
        and nobody waits until it connects. */
    method CreateGameRoom(playerConnection: Connection, msg: RequestCreateGameRoomMessage)
      modifies this`outbox, this`zoneRequests
      ensures |registeredZoneServers| == 0 ==>
                zoneRequests == old(zoneRequests)
                && outbox == old(outbox) + [Envelope(ToConnection(playerConnection), ResponseCreateGameRoom(CreateFailed))]
      ensures |registeredZoneServers| > 0 ==>
                outbox == old(outbox)
                && exists zone :: zone in registeredZoneServers
                                  && zoneRequests == old(zoneRequests) + [ZoneRequest(playerConnection, msg, zone)]
    {
      var zoneServer := SelectZoneServer();
      if zoneServer.Some? {
        zoneRequests := zoneRequests + [ZoneRequest(playerConnection, msg, zoneServer.value)];
      } else {
        outbox := outbox + [Envelope(ToConnection(playerConnection), ResponseCreateGameRoom(CreateFailed))];
      }
    }

    /** The connection to the selected zone is established: the player starts waiting and
        the request goes to the zone stamped with the player's connection id. */
    method OnZoneConnected(k: nat)
      requires k < |zoneRequests|
      modifies this`outbox, this`zoneRequests, this`awaitingPlayerConnections
      ensures var zr := old(zoneRequests[k]);
              zoneRequests == RemoveAt(old(zoneRequests), k)
              && awaitingPlayerConnections == old(awaitingPlayerConnections) + [zr.player]
              && outbox == old(outbox) + [Envelope(ToAddress(zr.zone.ip, zr.zone.port),
                                                   RequestCreateGameRoom(zr.request.(playerConnectionId := zr.player.connectionId)))]
    {
      var zr := zoneRequests[k];
      zoneRequests := RemoveAt(zoneRequests, k);
      awaitingPlayerConnections := awaitingPlayerConnections + [zr.player];
      var msg := zr.request.(playerConnectionId := zr.player.connectionId);
      outbox := outbox + [Envelope(ToAddress(zr.zone.ip, zr.zone.port), RequestCreateGameRoom(msg))];
    }

    /** The connection to the selected zone fails: the error is only logged, so the player
        is never answered. */
    method OnZoneConnectFailed(k: nat)
      requires k < |zoneRequests|
      modifies this`zoneRequests
      ensures zoneRequests == RemoveAt(old(zoneRequests), k)
    {
      zoneRequests := RemoveAt(zoneRequests, k);
    }

    /** The zone's spawn response arrives. */
    method OnSpawnResponse(response: ResponseSpawnGameServerMessage)
      modifies this`outbox, this`awaitingPlayerConnections
      ensures var r := ResolveSpawnResponse(old(awaitingPlayerConnections), response);
              awaitingPlayerConnections == r.awaiting && outbox == old(outbox) + r.sends
    {
      if !response.success {
        var found := IndexOfConnectionId(awaitingPlayerConnections, response.playerConnectionId);
        if found.Some? {
          var connection := awaitingPlayerConnections[found.value];
          outbox := outbox + [Envelope(ToConnection(connection), ResponseCreateGameRoom(CreateFailed))];
          awaitingPlayerConnections := RemoveAt(awaitingPlayerConnections, found.value);
        }
      }
    }

    /** OnCreateGameRoomRequested. */
    method OnCreateGameRoomRequested(conn: Connection, msg: RequestCreateGameRoomMessage)
      modifies this`outbox, this`zoneRequests
      ensures |registeredZoneServers| == 0 ==>
                zoneRequests == old(zoneRequests)
                && outbox == old(outbox) + [Envelope(ToConnection(conn), ResponseCreateGameRoom(CreateFailed))]
      ensures |registeredZoneServers| > 0 ==>
                outbox == old(outbox)
                && exists zone :: zone in registeredZoneServers
                                  && zoneRequests == old(zoneRequests) + [ZoneRequest(conn, msg, zone)]
    {
      CreateGameRoom(conn, msg);
    }

    /** OnPlayNowRequested: the first open public room is answered as a successful join;
        without one, a room "Default game" for 4 players without password is created. */
    method OnPlayNowRequested(conn: Connection)
      modifies this`outbox, this`zoneRequests
      ensures IndexOfOpenPublicGame(registeredGameServers).Some? ==>
                var room := registeredGameServers[IndexOfOpenPublicGame(registeredGameServers).value];
                zoneRequests == old(zoneRequests)
                && outbox == old(outbox) + [Envelope(ToConnection(conn), ResponseJoinGameRoom(
                                              ResponseJoinGameRoomMessage(true, GameFull, room.ip, room.port)))]
      ensures IndexOfOpenPublicGame(registeredGameServers).None? ==>
                var request := RequestCreateGameRoomMessage(conn.connectionId, Some("Default game"), 4, None, []);
                if |registeredZoneServers| == 0 then
                  zoneRequests == old(zoneRequests)
                  && outbox == old(outbox) + [Envelope(ToConnection(conn), ResponseCreateGameRoom(CreateFailed))]
                else
                  outbox == old(outbox)
                  && exists zone :: zone in registeredZoneServers
                                    && zoneRequests == old(zoneRequests) + [ZoneRequest(conn, request, zone)]
    {
      var game := IndexOfOpenPublicGame(registeredGameServers);
      if game.Some? {
        var room := registeredGameServers[game.value];
        var responseMsg := ResponseJoinGameRoomMessage(true, GameFull, room.ip, room.port);
        outbox := outbox + [Envelope(ToConnection(conn), ResponseJoinGameRoom(responseMsg))];
      } else {
        var requestMsg := RequestCreateGameRoomMessage(conn.connectionId, Some("Default game"), 4, None, []);
        CreateGameRoom(conn, requestMsg);
      }
    }

    /** RegisterZoneServer: appends the zone. */
    method RegisterZoneServer(conn: Connection, ip: NullableString, port: int)
      modifies this`registeredZoneServers
      ensures registeredZoneServers == old(registeredZoneServers) + [RegisteredZoneServer(conn, ip, port)]
    {
      registeredZoneServers := registeredZoneServers + [RegisteredZoneServer(conn, ip, port)];
    }

    /** UnregisterZoneServer: removes the first zone on that connection; a no-op when none. */
    method UnregisterZoneServer(conn: Connection)
      modifies this`registeredZoneServers
      ensures IndexOfZoneServer(old(registeredZoneServers), conn).None? ==> registeredZoneServers == old(registeredZoneServers)
      ensures IndexOfZoneServer(old(registeredZoneServers), conn).Some? ==>
                registeredZoneServers == RemoveAt(old(registeredZoneServers), IndexOfZoneServer(old(registeredZoneServers), conn).value)
    {
      var zoneServer := IndexOfZoneServer(registeredZoneServers, conn);
      if zoneServer.Some? {
        registeredZoneServers := RemoveAt(registeredZoneServers, zoneServer.value);
      }
    }

    /** RegisterGameServer: appends a room with the next id, no players, and the fields and
        properties of the message; the counter advances (wrapping as a C# int), and
        registration goes on after the wrap. As long as the counter has not wrapped yet, the
        new id was never handed out before. */
    method RegisterGameServer(conn: Connection, msg: RegisterGameServerMessage)
      requires Valid()
      modifies this`registeredGameServers, this`gameServerId, this`issuedIds
      ensures Valid()
      ensures registeredGameServers == old(registeredGameServers) + [RegisteredGameServer(
                conn, old(gameServerId), msg.ip, msg.port, msg.name, 0, msg.maxPlayers, msg.password,
                msg.hideWhenFull, msg.properties)]
      ensures gameServerId == Int32Succ(old(gameServerId))
      ensures issuedIds == old(issuedIds) + [old(gameServerId)]
      ensures old(IdHistory(issuedIds, gameServerId)) && old(gameServerId) < Int32Max ==>
                old(gameServerId) !in old(issuedIds) && IdHistory(issuedIds, gameServerId)
    {
      if IdHistory(issuedIds, gameServerId) && gameServerId < Int32Max {
        NextIdIsFresh(issuedIds, gameServerId);
      }
      var gameServer := RegisteredGameServer(conn, gameServerId, msg.ip, msg.port, msg.name, 0, msg.maxPlayers,
                                             msg.password, msg.hideWhenFull, msg.properties);
      issuedIds := issuedIds + [gameServerId];
      gameServerId := Int32Succ(gameServerId);
      registeredGameServers := registeredGameServers + [gameServer];
    }

    /** UnregisterGameServer: removes the first room on that connection; a no-op when none. */
    method UnregisterGameServer(conn: Connection)
      requires Valid()
      modifies this`registeredGameServers
      ensures Valid()
      ensures IndexOfGameServer(old(registeredGameServers), conn).None? ==> registeredGameServers == old(registeredGameServers)
      ensures IndexOfGameServer(old(registeredGameServers), conn).Some? ==>
                registeredGameServers == RemoveAt(old(registeredGameServers), IndexOfGameServer(old(registeredGameServers), conn).value)
    {
      var gameServer := IndexOfGameServer(registeredGameServers, conn);
      if gameServer.Some? {
        registeredGameServers := RemoveAt(registeredGameServers, gameServer.value);
      }
    }

    /** OnGameServerUnregistered: unregisters the room and acknowledges. */
    method OnGameServerUnregistered(conn: Connection)
      requires Valid()
      modifies this`registeredGameServers, this`outbox
      ensures Valid()
      ensures IndexOfGameServer(old(registeredGameServers), conn).None? ==> registeredGameServers == old(registeredGameServers)
      ensures IndexOfGameServer(old(registeredGameServers), conn).Some? ==>
                registeredGameServers == RemoveAt(old(registeredGameServers), IndexOfGameServer(old(registeredGameServers), conn).value)
      ensures outbox == old(outbox) + [Envelope(ToConnection(conn), UnregisterGameServerResponse)]
    {
      UnregisterGameServer(conn);
      outbox := outbox + [Envelope(ToConnection(conn), UnregisterGameServerResponse)];
    }

    /** OnDisconnectedFromBaseServer: the connection's zone and room, if any, are unregistered. */
    method OnDisconnectedFromBaseServer(conn: Connection)
      requires Valid()
      modifies this`registeredZoneServers, this`registeredGameServers
      ensures Valid()
      ensures IndexOfZoneServer(old(registeredZoneServers), conn).None? ==> registeredZoneServers == old(registeredZoneServers)
      ensures IndexOfZoneServer(old(registeredZoneServers), conn).Some? ==>
                registeredZoneServers == RemoveAt(old(registeredZoneServers), IndexOfZoneServer(old(registeredZoneServers), conn).value)
      ensures IndexOfGameServer(old(registeredGameServers), conn).None? ==> registeredGameServers == old(registeredGameServers)
      ensures IndexOfGameServer(old(registeredGameServers), conn).Some? ==>
                registeredGameServers == RemoveAt(old(registeredGameServers), IndexOfGameServer(old(registeredGameServers), conn).value)
    {
      UnregisterZoneServer(conn);
      UnregisterGameServer(conn);
    }

    /** OnGameServerStateUpdated: the first room on that connection takes the reported
        player count; nothing else changes. */
    method OnGameServerStateUpdated(conn: Connection, numPlayers: int)
      requires Valid()
      modifies this`registeredGameServers
      ensures Valid()
      ensures IndexOfGameServer(old(registeredGameServers), conn).None? ==> registeredGameServers == old(registeredGameServers)
      ensures IndexOfGameServer(old(registeredGameServers), conn).Some? ==>
                var i := IndexOfGameServer(old(registeredGameServers), conn).value;
                registeredGameServers == old(registeredGameServers)[i := old(registeredGameServers)[i].(numPlayers := numPlayers)]
    {
      var gameServer := IndexOfGameServer(registeredGameServers, conn);
      if gameServer.Some? {
        var i := gameServer.value;
        registeredGameServers := registeredGameServers[i := registeredGameServers[i].(numPlayers := numPlayers)];
      }
    }

    /** OnNotifiedGameServerReady: the waiting player the notification names is answered
        with the room's address and stops waiting; an unmatched notification does nothing. */
    method OnNotifiedGameServerReady(ready: NotifyGameServerReadyMessage)
      modifies this`outbox, this`awaitingPlayerConnections
      ensures var r := ResolveReady(old(awaitingPlayerConnections), ready);
              awaitingPlayerConnections == r.awaiting && outbox == old(outbox) + r.sends
    {
      var found := IndexOfConnectionId(awaitingPlayerConnections, ready.playerConnectionId);
      if found.Some? {
        var connection := awaitingPlayerConnections[found.value];
        var responseMsg := ResponseCreateGameRoomMessage(0, true, ZoneServerUnavailable, ready.ip, ready.port);
        outbox := outbox + [Envelope(ToConnection(connection), ResponseCreateGameRoom(responseMsg))];
        awaitingPlayerConnections := RemoveAt(awaitingPlayerConnections, found.value);
      }
    }
  }
}
