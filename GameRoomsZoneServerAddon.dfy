/** GameRoomsZoneServerAddon.cs: the zone server's handlers for the master's create and
    destroy requests. A create request spawns a game server with the zone's properties
    followed by the request's, records the spawned room and answers the master with the
    outcome; a destroy request for a recorded port returns that port to the zone's pool. */
module GameRoomsZoneServerAddon {
  import opened Common
  import opened Protocol
  import opened ZoneServer
  import opened CommandLine
  import opened GameRoomsMasterServerAddon

  /** The spawn response as the zone builds it. Its playerConnectionId is never assigned
      and keeps 0; a success carries the room's address. */
  function SpawnResponse(outcome: SpawnOutcome): (r: ResponseSpawnGameServerMessage)
    requires !outcome.PoolExhausted?
    ensures r.playerConnectionId == 0
    ensures r.success <==> outcome.Spawned?
    ensures outcome.Spawned? ==> r.ip == outcome.game.ip && r.port == outcome.game.port
    ensures !outcome.Spawned? ==> r.ip == None && r.port == 0
  {
    match outcome
    case Spawned(game) => ResponseSpawnGameServerMessage(0, true, game.ip, game.port)
    case SpawnFailed => ResponseSpawnGameServerMessage(0, false, None, 0)
  }

  /** The spawn response with the requesting player's connection id, which is what the
      master looks the waiting player up by. */
  function IntendedSpawnResponse(request: RequestCreateGameRoomMessage, outcome: SpawnOutcome)
    : (r: ResponseSpawnGameServerMessage)
    requires !outcome.PoolExhausted?
    ensures r.playerConnectionId == request.playerConnectionId
    ensures r.success <==> outcome.Spawned?
    ensures outcome.Spawned? ==> r.ip == outcome.game.ip && r.port == outcome.game.port
  {
    SpawnResponse(outcome).(playerConnectionId := request.playerConnectionId)
  }

  /** As written: when spawning fails, the master receives a response naming connection
      id 0. A player waiting on any other id is neither answered nor removed from the
      waiting list, whatever the request said. */
  lemma {:induction false} FailedSpawnLeavesPlayerWaiting(awaiting: seq<Connection>)
    requires forall j :: 0 <= j < |awaiting| ==> awaiting[j].connectionId != 0
    ensures ResolveSpawnResponse(awaiting, SpawnResponse(SpawnFailed)) == Resolution(awaiting, [])
  {
    assert IndexOfConnectionId(awaiting, 0).None?;
  }

  /** The same on one concrete run: the player on connection id 1 asks for a room, the
      zone fails to start the process, and the player is still waiting, unanswered. */
  lemma FailedSpawnExample()
    ensures var player := Connection(7, 1);
            var request := RequestCreateGameRoomMessage(player.connectionId, Some("room"), 4, None, []);
            var r := ResolveSpawnResponse([player], SpawnResponse(SpawnFailed));
            r.awaiting == [player] && r.sends == []
            && ResolveSpawnResponse([player], IntendedSpawnResponse(request, SpawnFailed)).sends != []
  {
    var player := Connection(7, 1);
    assert IndexOfConnectionId([player], 0).None?;
    assert IndexOfConnectionId([player], 1) == Some(0);
  }

  /** Corrected: with the request's connection id in the response, a failed spawn answers
      exactly the player that asked (CreateFailed) and ends its wait, when no other
      waiting connection shares its id. */
  lemma {:induction false} IntendedFailedSpawnAnswersRequester(awaiting: seq<Connection>, i: nat,
                                                              request: RequestCreateGameRoomMessage)
    requires i < |awaiting| && request.playerConnectionId == awaiting[i].connectionId
    requires forall j :: 0 <= j < |awaiting| && j != i ==> awaiting[j].connectionId != awaiting[i].connectionId
    ensures var r := ResolveSpawnResponse(awaiting, IntendedSpawnResponse(request, SpawnFailed));
            r.sends == [Envelope(ToConnection(awaiting[i]), ResponseCreateGameRoom(CreateFailed))]
            && r.awaiting == RemoveAt(awaiting, i)
  {
    assert IndexOfConnectionId(awaiting, request.playerConnectionId) == Some(i);
  }

  /** `rooms.Find(x => x.port == port)`. */
  function IndexOfRoomPort(rooms: seq<SpawnedGame>, port: int): (r: Option<nat>)
    ensures r.None? <==> forall j :: 0 <= j < |rooms| ==> rooms[j].port != port
    ensures r.Some? ==> r.value < |rooms| && rooms[r.value].port == port
                        && forall j :: 0 <= j < r.value ==> rooms[j].port != port
  {
    if |rooms| == 0 then None
    else if rooms[0].port == port then Some(0)
    else match IndexOfRoomPort(rooms[1..], port)
      case None => None
      case Some(i) => Some(i + 1)
  }

  class GameRoomsZoneServerAddon {
    const zoneServer: ZoneServer
    var rooms: seq<SpawnedGame>
    var outbox: seq<Envelope>

    constructor (zoneServer: ZoneServer)
      ensures this.zoneServer == zoneServer && rooms == [] && outbox == []
    {
      this.zoneServer := zoneServer;
      rooms := [];
      outbox := [];
    }

    /** OnCreateGameRoomRequested: spawns with the zone's properties followed by the
        request's (duplicates kept). A spawned room is recorded and the master gets one
        success response with its address; a failed spawn records nothing and gets one
        failure response. On an exhausted port pool the handler throws: no response. */
    method OnCreateGameRoomRequested(conn: Connection, msg: RequestCreateGameRoomMessage, processStarts: bool)
      returns (outcome: SpawnOutcome)
      modifies this`rooms, this`outbox, zoneServer`availablePorts, zoneServer`launches, zoneServer`outbox
      ensures |old(zoneServer.availablePorts)| == 0 <==> outcome.PoolExhausted?
      ensures outcome.PoolExhausted? ==> rooms == old(rooms) && outbox == old(outbox)
      ensures outcome.Spawned? ==>
                outcome.game.properties == zoneServer.properties + msg.properties
                && outcome.game.port == old(zoneServer.availablePorts)[0]
                && outcome.game.name == msg.name && outcome.game.maxPlayers == msg.maxPlayers
                && outcome.game.password == msg.password
                && rooms == old(rooms) + [outcome.game]
      ensures outcome.SpawnFailed? ==> rooms == old(rooms)
      ensures !outcome.PoolExhausted? ==>
                outbox == old(outbox) + [Envelope(ToConnection(conn), ResponseSpawnGameServer(SpawnResponse(outcome)))]
      ensures !outcome.PoolExhausted? ==> zoneServer.availablePorts == old(zoneServer.availablePorts)[1..]
      // what the zone server does: an exhausted pool leaves it untouched; otherwise the head
      // port is launched, and a started process is sent the registration request that
      // forwards the requesting player's connection id
      ensures outcome.PoolExhausted? ==>
                zoneServer.availablePorts == old(zoneServer.availablePorts)
                && zoneServer.launches == old(zoneServer.launches) && zoneServer.outbox == old(zoneServer.outbox)
      ensures !outcome.PoolExhausted? ==>
                var port := old(zoneServer.availablePorts)[0];
                var properties := zoneServer.properties + msg.properties;
                zoneServer.launches == old(zoneServer.launches)
                                       + [LaunchArguments(zoneServer.zoneServerIp, port, zoneServer.spawnGameServersInBatchMode)]
                && (outcome.Spawned? <==> processStarts)
                && (outcome.Spawned? ==>
                      outcome.game == SpawnedGame(0, Some(zoneServer.zoneServerIp), port, msg.name, 0, msg.maxPlayers,
                                                  msg.password, properties)
                      && zoneServer.outbox == old(zoneServer.outbox)
                           + [Envelope(ToAddress(Some(zoneServer.zoneServerIp), port),
                                       zoneServer.RegistrationRequest(msg.playerConnectionId, msg.name, msg.maxPlayers, msg.password,
                                                           properties))])
                && (outcome.SpawnFailed? ==> zoneServer.outbox == old(zoneServer.outbox))
    {
      var properties := zoneServer.properties + msg.properties;
      outcome := zoneServer.SpawnGameServer(msg.playerConnectionId, msg.name, msg.maxPlayers, msg.password,
                                            properties, processStarts);
      if outcome.PoolExhausted? {
        return;
      }
      var responseMsg := ResponseSpawnGameServerMessage(0, false, None, 0);
      if outcome.Spawned? {
        rooms := rooms + [outcome.game];
        responseMsg := responseMsg.(success := true, ip := outcome.game.ip, port := outcome.game.port);
      } else {
        responseMsg := responseMsg.(success := false);
      }
      outbox := outbox + [Envelope(ToConnection(conn), ResponseSpawnGameServer(responseMsg))];
    }

    /** OnDestroyGameRoomRequested: a recorded port goes back to the zone's pool and one
        acknowledgement is sent, but the room stays recorded; an unknown port changes
        nothing and gets no answer. */
    method OnDestroyGameRoomRequested(conn: Connection, port: int)
      modifies this`outbox, zoneServer`availablePorts
      ensures IndexOfRoomPort(rooms, port).None? ==>
                outbox == old(outbox) && zoneServer.availablePorts == old(zoneServer.availablePorts)
      ensures IndexOfRoomPort(rooms, port).Some? ==>
                zoneServer.availablePorts == old(zoneServer.availablePorts) + [port]
                && outbox == old(outbox) + [Envelope(ToConnection(conn), ResponseDestroyGameRoom)]
    {
      var room := IndexOfRoomPort(rooms, port);
      if room.Some? {
        zoneServer.DestroyGameServer(rooms[room.value].port);
        outbox := outbox + [Envelope(ToConnection(conn), ResponseDestroyGameRoom)];
      }
    }
  }
}
