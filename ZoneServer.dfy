/** ZoneServer.cs: a zone server launches game servers on its machine. It keeps a FIFO
    queue of free ports, filled at start-up with the maxGameServers ports that follow its
    own; each spawn takes the port at the head of the queue, and destroying a game server
    puts its port back at the tail.

    Process.Start is outside the model: whether it starts the binary or throws is an
    input of each spawn, and the arguments it is given are recorded in `launches`. The
    registration request a spawn sends once its client connects to the new game server
    goes to the outbox. */
module ZoneServer {
  import opened Common
  import opened Protocol
  import opened CommandLine

  /** SpawnedGame without its process handle and zone-to-game client; `id` and
      `numPlayers` are never assigned and keep 0. */
  datatype SpawnedGame = SpawnedGame(
    id: int, ip: NullableString, port: int, name: NullableString, numPlayers: int,
    maxPlayers: int, password: NullableString, properties: seq<Property>)

  /** What SpawnGameServer gives back: the record; null after Process.Start threw; or the
      InvalidOperationException of dequeuing from an empty queue, which happens before
      the try block and so reaches the caller. */
  datatype SpawnOutcome = Spawned(game: SpawnedGame) | SpawnFailed | PoolExhausted

  /** The ports Awake enqueues: base + 1, ..., base + count, in that order. */
  function PortRange(base: int, count: nat): (r: seq<int>)
    ensures |r| == count
    ensures forall i :: 0 <= i < count ==> r[i] == base + i + 1
  {
    seq(count, i requires 0 <= i < count => base + i + 1)
  }

  /** The initial pool is strictly ascending (so free of duplicates), and none of its ports
      is the zone's own. */
  lemma {:induction false} PortRangeAscending(base: int, count: nat)
    ensures forall i, j :: 0 <= i < j < count ==> PortRange(base, count)[i] < PortRange(base, count)[j]
    ensures base !in PortRange(base, count)
  {
    var r := PortRange(base, count);
    assert forall i :: 0 <= i < |r| ==> r[i] > base;
  }

  class ZoneServer {
    const masterServerIp: NullableString
    const masterServerPort: int
    /** Awake asserts this is non-empty, but Unity's Assert only logs by default; the model
        does not rely on it. */
    const zoneServerIp: string
    const zoneServerPort: int
    const gameServerBinaryPath: NullableString
    const maxGameServers: int
    const numPreSpawnedGameServers: int
    const spawnGameServersInBatchMode: bool
    const defaultGameName: NullableString
    const defaultGameMaxPlayers: int
    const properties: seq<Property>
    /** The queue of free ports; the head is index 0. */
    var availablePorts: seq<int>
    /** The arguments of every Process.Start call, in order. */
    var launches: seq<string>
    var outbox: seq<Envelope>

    constructor (masterServerIp: NullableString, masterServerPort: int, zoneServerIp: string, zoneServerPort: int,
                 gameServerBinaryPath: NullableString, maxGameServers: int, numPreSpawnedGameServers: int,
                 spawnGameServersInBatchMode: bool, defaultGameName: NullableString, defaultGameMaxPlayers: int,
                 properties: seq<Property>)
      ensures this.masterServerIp == masterServerIp && this.masterServerPort == masterServerPort
      ensures this.zoneServerIp == zoneServerIp && this.zoneServerPort == zoneServerPort
      ensures this.gameServerBinaryPath == gameServerBinaryPath && this.maxGameServers == maxGameServers
      ensures this.numPreSpawnedGameServers == numPreSpawnedGameServers
      ensures this.spawnGameServersInBatchMode == spawnGameServersInBatchMode
      ensures this.defaultGameName == defaultGameName && this.defaultGameMaxPlayers == defaultGameMaxPlayers
      ensures this.properties == properties
      ensures availablePorts == [] && launches == [] && outbox == []
    {
      this.masterServerIp := masterServerIp;
      this.masterServerPort := masterServerPort;
      this.zoneServerIp := zoneServerIp;
      this.zoneServerPort := zoneServerPort;
      this.gameServerBinaryPath := gameServerBinaryPath;
      this.maxGameServers := maxGameServers;
      this.numPreSpawnedGameServers := numPreSpawnedGameServers;
      this.spawnGameServersInBatchMode := spawnGameServersInBatchMode;
      this.defaultGameName := defaultGameName;
      this.defaultGameMaxPlayers := defaultGameMaxPlayers;
      this.properties := properties;
      availablePorts := [];
      launches := [];
      outbox := [];
    }

    /** The registration request a spawned game server receives once the zone connects to it. */
    function RegistrationRequest(playerConnectionId: int, name: NullableString, maxPlayers: int,
                                 password: NullableString, gameProperties: seq<Property>): (m: Message)
      reads this
      ensures m.RequestGameServerRegistration?
      ensures m.gameRegistration.playerConnectionId == playerConnectionId
      ensures m.gameRegistration.zoneServerIp == Some(zoneServerIp) && m.gameRegistration.zoneServerPort == zoneServerPort
    {
      RequestGameServerRegistration(RequestGameServerRegistrationMessage(
        playerConnectionId, Some(zoneServerIp), zoneServerPort, name, maxPlayers, password, gameProperties))
    }

    /** Awake: enqueues zoneServerPort + 1, ..., zoneServerPort + maxGameServers. */
    method Awake()
      modifies this`availablePorts
      ensures availablePorts == old(availablePorts) + PortRange(zoneServerPort, if maxGameServers < 0 then 0 else maxGameServers)
    {
      var count: nat := if maxGameServers < 0 then 0 else maxGameServers;
      var i := 0;
      while i < count
        invariant 0 <= i <= count
        invariant availablePorts == old(availablePorts) + PortRange(zoneServerPort, i)
      {
        availablePorts := availablePorts + [zoneServerPort + i + 1];
        i := i + 1;
      }
    }

    /** SpawnGameServer: on an empty queue, the dequeue throws and nothing changes.
        Otherwise the head port is taken (and never given back if Process.Start throws),
        the binary is launched with LaunchArguments, and on success the record carries the
        zone's address, that port, and the requested name, size, password and properties,
        and the registration request for the new game server is sent to that address. */
    method SpawnGameServer(playerConnectionId: int, name: NullableString, maxPlayers: int,
                           password: NullableString, gameProperties: seq<Property>, processStarts: bool)
      returns (result: SpawnOutcome)
      modifies this`availablePorts, this`launches, this`outbox
      ensures |old(availablePorts)| == 0 ==>
                result == PoolExhausted && availablePorts == old(availablePorts)
                && launches == old(launches) && outbox == old(outbox)
      ensures |old(availablePorts)| > 0 ==>
                var port := old(availablePorts)[0];
                availablePorts == old(availablePorts)[1..]
                && launches == old(launches) + [LaunchArguments(zoneServerIp, port, spawnGameServersInBatchMode)]
                && (processStarts ==>
                      result == Spawned(SpawnedGame(0, Some(zoneServerIp), port, name, 0, maxPlayers, password, gameProperties))
                      && outbox == old(outbox) + [Envelope(ToAddress(Some(zoneServerIp), port),
                                                           RegistrationRequest(playerConnectionId, name, maxPlayers, password, gameProperties))])
                && (!processStarts ==> result == SpawnFailed && outbox == old(outbox))
      // the taken port leaves the pool, whether or not the launch succeeds
      ensures |old(availablePorts)| > 0 ==>
                multiset(old(availablePorts)) == multiset(availablePorts) + multiset{old(availablePorts)[0]}
    {
      if |availablePorts| == 0 {
        return PoolExhausted;
      }
      var ip := zoneServerIp;
      var port := availablePorts[0];
      assert availablePorts == [port] + availablePorts[1..];
      availablePorts := availablePorts[1..];
      var arguments := ip + " " + IntToString(port);
      if spawnGameServersInBatchMode {
        arguments := arguments + BatchModeArguments;
      } else {
        assert arguments + "" == arguments;
      }
      assert arguments == LaunchArguments(ip, port, spawnGameServersInBatchMode);
      launches := launches + [arguments];
      if !processStarts {
        return SpawnFailed;
      }
      var gameServer := SpawnedGame(0, Some(ip), port, name, 0, maxPlayers, password, gameProperties);
      outbox := outbox + [Envelope(ToAddress(Some(ip), port),
                                   RegistrationRequest(playerConnectionId, name, maxPlayers, password, gameProperties))];
      return Spawned(gameServer);
    }

    /** DestroyGameServer: the port goes back to the tail of the queue, without any check:
        a port returned twice is in the pool twice, and two later spawns can receive it. */
    method DestroyGameServer(port: int)
      modifies this`availablePorts
      ensures availablePorts == old(availablePorts) + [port]
      ensures multiset(availablePorts) == multiset(old(availablePorts)) + multiset{port}
      ensures multiset(availablePorts)[port] == multiset(old(availablePorts))[port] + 1
    {
      availablePorts := availablePorts + [port];
    }

    /** Start: registers the zone with the master (sent once connected), then pre-spawns
        numPreSpawnedGameServers game servers for no player (connection id -1), with the
        default name and size, no password and the zone's properties. `processStarts[i]`
        says whether the i-th launch starts. The pre-spawned rooms are not recorded by the
        zone's add-on. When the queue runs out, the dequeue's exception ends Start. */
    method Start(processStarts: seq<bool>)
      requires |processStarts| >= numPreSpawnedGameServers
      modifies this`availablePorts, this`launches, this`outbox
      ensures var spawned := if numPreSpawnedGameServers < 0 then 0
                             else if numPreSpawnedGameServers < |old(availablePorts)| then numPreSpawnedGameServers
                             else |old(availablePorts)|;
              availablePorts == old(availablePorts)[spawned..]
              && |launches| == |old(launches)| + spawned
      ensures |outbox| > |old(outbox)|
      ensures outbox[|old(outbox)|] == Envelope(ToAddress(masterServerIp, masterServerPort),
                                                RegisterZoneServer(Some(zoneServerIp), zoneServerPort))
      ensures forall k :: |old(outbox)| < k < |outbox| ==>
                outbox[k].msg == RegistrationRequest(-1, defaultGameName, defaultGameMaxPlayers, None, properties)
    {
      var register := Envelope(ToAddress(masterServerIp, masterServerPort), RegisterZoneServer(Some(zoneServerIp), zoneServerPort));
      outbox := outbox + [register];
      ghost var pool0 := availablePorts;
      ghost var sent0 := |outbox|;
      var i := 0;
      while i < numPreSpawnedGameServers
        invariant 0 <= i <= |pool0|
        invariant numPreSpawnedGameServers >= 0 ==> i <= numPreSpawnedGameServers
        invariant numPreSpawnedGameServers < 0 ==> i == 0
        invariant availablePorts == pool0[i..]
        invariant |launches| == |old(launches)| + i
        invariant |outbox| >= sent0 && outbox[..sent0] == old(outbox) + [register]
        invariant forall k :: sent0 <= k < |outbox| ==>
                    outbox[k].msg == RegistrationRequest(-1, defaultGameName, defaultGameMaxPlayers, None, properties)
      {
        var result := SpawnGameServer(-1, defaultGameName, defaultGameMaxPlayers, None, properties, processStarts[i]);
        if result == PoolExhausted {
          return;
        }
        assert availablePorts == pool0[i + 1..];
        i := i + 1;
      }
    }
  }
}
