/** GameServer.cs: a game server (one room). It queues a player-count update whenever a
    player is added or removed and sends the queued updates to the master on every frame
    in which its master connection is up. A spawned game server learns its address from
    the command line and its room settings from the zone's registration request, and
    then registers with the master; when empty it asks to be destroyed and unregistered
    and schedules its own shutdown.

    GameServer derives from BaseServer in the source; here it holds the BaseServer whose
    players list it shares, and restates the handlers that reach its overrides. The
    client to the master is a three-state link; timers (the 30-second close-when-empty
    check, the 5-second shutdown delay) are events or a flag. */
module GameServer {
  import opened Common
  import opened Protocol
  import opened BaseServer
  import opened CommandLine

  /** The game-to-master client: not created yet (null), created and connecting, or connected. */
  datatype MasterLink = NoClient | Connecting | Connected

  /** The sends of CloseWhenEmpty on an empty server: a destroy request with the server's
      own port to its zone (only for a server spawned by a zone), then an unregister to
      the master; without a master client the second send throws and is missing. */
  function ClosingSends(isStandalone: bool, zone: Endpoint, gameServerPort: int, master: Endpoint, link: MasterLink)
    : (r: seq<Envelope>)
    ensures |r| == (if isStandalone then 0 else 1) + (if link == NoClient then 0 else 1)
    ensures !isStandalone ==> r[0] == Envelope(zone, RequestDestroyGameRoom(gameServerPort))
    ensures link != NoClient ==> r[|r| - 1] == Envelope(master, UnregisterGameServer)
    ensures forall k :: 0 <= k < |r| ==> r[k].msg.RequestDestroyGameRoom? || r[k].msg.UnregisterGameServer?
  {
    (if isStandalone then [] else [Envelope(zone, RequestDestroyGameRoom(gameServerPort))])
    + (if link == NoClient then [] else [Envelope(master, UnregisterGameServer)])
  }

  /** One send of each queued player count to the master, oldest first. */
  function UpdateSends(master: Endpoint, queue: seq<int>): (r: seq<Envelope>)
    ensures |r| == |queue|
    ensures forall k :: 0 <= k < |r| ==> r[k] == Envelope(master, UpdateGameServerState(queue[k]))
  {
    seq(|queue|, k requires 0 <= k < |queue| => Envelope(master, UpdateGameServerState(queue[k])))
  }

  /** Draining two batches one after the other sends the same as draining them together. */
  lemma {:induction false} UpdateSendsOfConcatenation(master: Endpoint, a: seq<int>, b: seq<int>)
    ensures UpdateSends(master, a + b) == UpdateSends(master, a) + UpdateSends(master, b)
  {
    var lhs := UpdateSends(master, a + b);
    var rhs := UpdateSends(master, a) + UpdateSends(master, b);
    assert |lhs| == |rhs|;
    forall k | 0 <= k < |lhs| ensures lhs[k] == rhs[k] {
      if k < |a| {
        assert (a + b)[k] == a[k];
      } else {
        assert (a + b)[k] == b[k - |a|];
      }
    }
  }

  class GameServer {
    const baseServer: BaseServer
    const masterServerIp: NullableString
    const masterServerPort: int
    const isStandalone: bool
    const closeWhenEmpty: bool
    const hideWhenFull: bool
    var gameServerIp: NullableString
    var gameServerPort: int
    var gameName: NullableString
    var maxPlayers: int
    var password: NullableString
    var properties: seq<Property>
    var zoneServerIp: NullableString
    var zoneServerPort: int
    var playerConnectionId: int
    /** The numPlayers of each queued UpdateGameServerState message, oldest first. */
    var gameServerStateUpdates: seq<int>
    var gameToMaster: MasterLink
    /** Invoke("Shutdown", 5.0f) has been issued. */
    var shutdownScheduled: bool
    var outbox: seq<Envelope>

    constructor (baseServer: BaseServer, masterServerIp: NullableString, masterServerPort: int,
                 gameServerIp: NullableString, gameServerPort: int, gameName: NullableString, maxPlayers: int,
                 password: NullableString, isStandalone: bool, closeWhenEmpty: bool, hideWhenFull: bool,
                 properties: seq<Property>)
      ensures this.baseServer == baseServer && this.masterServerIp == masterServerIp
      ensures this.masterServerPort == masterServerPort && this.gameServerIp == gameServerIp
      ensures this.gameServerPort == gameServerPort && this.gameName == gameName && this.maxPlayers == maxPlayers
      ensures this.password == password && this.isStandalone == isStandalone && this.closeWhenEmpty == closeWhenEmpty
      ensures this.hideWhenFull == hideWhenFull && this.properties == properties
      ensures zoneServerIp == None && zoneServerPort == 0 && playerConnectionId == 0
      ensures gameServerStateUpdates == [] && gameToMaster == NoClient && !shutdownScheduled && outbox == []
    {
      this.baseServer := baseServer;
      this.masterServerIp := masterServerIp;
      this.masterServerPort := masterServerPort;
      this.gameServerIp := gameServerIp;
      this.gameServerPort := gameServerPort;
      this.gameName := gameName;
      this.maxPlayers := maxPlayers;
      this.password := password;
      this.isStandalone := isStandalone;
      this.closeWhenEmpty := closeWhenEmpty;
      this.hideWhenFull := hideWhenFull;
      this.properties := properties;
      zoneServerIp := None;
      zoneServerPort := 0;
      playerConnectionId := 0;
      gameServerStateUpdates := [];
      gameToMaster := NoClient;
      shutdownScheduled := false;
      outbox := [];
    }

    function MasterEndpoint(): Endpoint {
      ToAddress(masterServerIp, masterServerPort)
    }

    /** The most recent queued update, if any, carries the current player count. */
    ghost predicate LatestCountQueued()
      reads this, baseServer
    {
      gameServerStateUpdates == [] || gameServerStateUpdates[|gameServerStateUpdates| - 1] == |baseServer.players|
    }

    /** Start: a standalone server registers with the master; a spawned one takes its
        address from argument 1 and its port from argument 2 of the command line. When
        the arguments are missing or the port does not parse, Start throws before
        changing anything. */
    method Start(args: seq<string>)
      modifies this`gameServerIp, this`gameServerPort, this`gameToMaster
      ensures isStandalone ==>
                gameToMaster == Connecting && gameServerIp == old(gameServerIp) && gameServerPort == old(gameServerPort)
      ensures !isStandalone ==> gameToMaster == old(gameToMaster)
      ensures !isStandalone && AddressFromArguments(args).Some? ==>
                gameServerIp == Some(AddressFromArguments(args).value.0)
                && gameServerPort == AddressFromArguments(args).value.1
      ensures !isStandalone && AddressFromArguments(args).None? ==>
                gameServerIp == old(gameServerIp) && gameServerPort == old(gameServerPort)
    {
      if isStandalone {
        RegisterInMasterServer();
      } else {
        var address := AddressFromArguments(args);
        if address.Some? {
          gameServerIp := Some(address.value.0);
          gameServerPort := address.value.1;
        }
      }
    }

    /** RegisterInMasterServer: a new client to the master, which starts connecting. */
    method RegisterInMasterServer()
      modifies this`gameToMaster
      ensures gameToMaster == Connecting
    {
      gameToMaster := Connecting;
    }

    /** NotifyGameServerIsReady: tells the master which waiting player this room was
        created for and where it listens. */
    method NotifyGameServerIsReady()
      requires gameToMaster != NoClient
      modifies this`outbox
      ensures outbox == old(outbox) + [Envelope(MasterEndpoint(), NotifyGameServerReady(
                NotifyGameServerReadyMessage(playerConnectionId, gameServerIp, gameServerPort)))]
    {
      var msg := NotifyGameServerReadyMessage(playerConnectionId, gameServerIp, gameServerPort);
      outbox := outbox + [Envelope(MasterEndpoint(), NotifyGameServerReady(msg))];
    }

    /** The master client connects: the room registers with its current settings, then
        reports itself ready. */
    method OnMasterConnected()
      requires gameToMaster == Connecting
      modifies this`gameToMaster, this`outbox
      ensures gameToMaster == Connected
      ensures outbox == old(outbox) + [
                Envelope(MasterEndpoint(), RegisterGameServer(RegisterGameServerMessage(
                  gameServerIp, gameServerPort, gameName, maxPlayers, password, hideWhenFull, properties))),
                Envelope(MasterEndpoint(), NotifyGameServerReady(
                  NotifyGameServerReadyMessage(playerConnectionId, gameServerIp, gameServerPort)))]
    {
      gameToMaster := Connected;
      var msg := RegisterGameServerMessage(gameServerIp, gameServerPort, gameName, maxPlayers, password, hideWhenFull, properties);
      outbox := outbox + [Envelope(MasterEndpoint(), RegisterGameServer(msg))];
      NotifyGameServerIsReady();
    }

    /** OnGameServerRegistrationRequested: adopts the requesting player's connection id,
        the zone's address and the room's name, size and password; appends (does not
        replace) the received properties; starts registering with the master; and
        acknowledges to the zone. */
    method OnGameServerRegistrationRequested(conn: Connection, msg: RequestGameServerRegistrationMessage)
      modifies this`playerConnectionId, this`zoneServerIp, this`zoneServerPort, this`gameName, this`maxPlayers,
               this`password, this`properties, this`gameToMaster, this`outbox
      ensures playerConnectionId == msg.playerConnectionId
      ensures zoneServerIp == msg.zoneServerIp && zoneServerPort == msg.zoneServerPort
      ensures gameName == msg.name && maxPlayers == msg.maxPlayers && password == msg.password
      ensures properties == old(properties) + msg.properties
      ensures gameToMaster == Connecting
      ensures outbox == old(outbox) + [Envelope(ToConnection(conn), ResponseGameServerRegistration)]
    {
      playerConnectionId := msg.playerConnectionId;
      zoneServerIp := msg.zoneServerIp;
      zoneServerPort := msg.zoneServerPort;
      gameName := msg.name;
      maxPlayers := msg.maxPlayers;
      password := msg.password;
      var merged := properties;
      for k := 0 to |msg.properties|
        invariant merged == old(properties) + msg.properties[..k]
      {
        assert msg.properties[..k + 1] == msg.properties[..k] + [msg.properties[k]];
        merged := merged + [msg.properties[k]];
      }
      assert msg.properties[..|msg.properties|] == msg.properties;
      properties := merged;
      RegisterInMasterServer();
      outbox := outbox + [Envelope(ToConnection(conn), ResponseGameServerRegistration)];
    }

    /** Update: while the master client is connected, sends every queued update in order
        and empties the queue; otherwise the queue waits. The last count sent is then the
        current one. */
    method Update()
      modifies this`outbox, this`gameServerStateUpdates
      ensures gameToMaster == Connected ==>
                outbox == old(outbox) + UpdateSends(MasterEndpoint(), old(gameServerStateUpdates))
                && gameServerStateUpdates == []
      ensures gameToMaster != Connected ==>
                outbox == old(outbox) && gameServerStateUpdates == old(gameServerStateUpdates)
      ensures gameToMaster == Connected && old(gameServerStateUpdates) != [] && old(LatestCountQueued()) ==>
                outbox[|outbox| - 1] == Envelope(MasterEndpoint(), UpdateGameServerState(|baseServer.players|))
      ensures old(LatestCountQueued()) ==> LatestCountQueued()
    {
      if gameToMaster == Connected {
        var queue := gameServerStateUpdates;
        var sent := outbox;
        var updatesToRemove: seq<int> := [];
        for k := 0 to |queue|
          invariant updatesToRemove == queue[..k]
          invariant sent == old(outbox) + UpdateSends(MasterEndpoint(), updatesToRemove)
        {
          var update := queue[k];
          UpdateSendsOfConcatenation(MasterEndpoint(), updatesToRemove, [update]);
          sent := sent + [Envelope(MasterEndpoint(), UpdateGameServerState(update))];
          assert queue[..k + 1] == queue[..k] + [update];
          updatesToRemove := updatesToRemove + [update];
        }
        assert updatesToRemove == queue;
        outbox := sent;
        for k := 0 to |updatesToRemove|
          invariant queue == updatesToRemove[k..]
        {
          queue := queue[1..];
        }
        gameServerStateUpdates := queue;
      }
    }

    /** CloseWhenEmpty: nothing while players remain. On an empty server, the sends of
        ClosingSends, and a shutdown in five seconds unless the missing master client made
        it throw first. */
    method CloseWhenEmpty()
      modifies this`outbox, this`shutdownScheduled
      ensures |baseServer.players| > 0 ==> outbox == old(outbox) && shutdownScheduled == old(shutdownScheduled)
      ensures |baseServer.players| == 0 ==>
                outbox == old(outbox) + ClosingSends(isStandalone, ToAddress(zoneServerIp, zoneServerPort),
                                                     gameServerPort, MasterEndpoint(), gameToMaster)
                && shutdownScheduled == (old(shutdownScheduled) || gameToMaster != NoClient)
    {
      if |baseServer.players| == 0 {
        if !isStandalone {
          outbox := outbox + [Envelope(ToAddress(zoneServerIp, zoneServerPort), RequestDestroyGameRoom(gameServerPort))];
        }
        if gameToMaster == NoClient {
          return;
        }
        outbox := outbox + [Envelope(MasterEndpoint(), UnregisterGameServer)];
        shutdownScheduled := true;
      }
    }

    /** AddPlayer: the base add (a no-op for a known connection), then an update carrying
        the player count, queued even when nothing was added. */
    method AddPlayer(conn: Connection, username: NullableString)
      modifies baseServer`players, this`gameServerStateUpdates
      ensures IndexOfConnection(old(baseServer.players), conn).Some? ==> baseServer.players == old(baseServer.players)
      ensures IndexOfConnection(old(baseServer.players), conn).None? ==>
                baseServer.players == old(baseServer.players) + [Player(conn, username)]
      ensures gameServerStateUpdates == old(gameServerStateUpdates) + [|baseServer.players|]
      ensures LatestCountQueued()
    {
      baseServer.AddPlayer(conn, username);
      gameServerStateUpdates := gameServerStateUpdates + [|baseServer.players|];
    }

    /** RemovePlayer: the base remove, then an update carrying the player count, always
        queued; CloseWhenEmpty runs only when a player was removed and closeWhenEmpty is set. */
    method RemovePlayer(conn: Connection)
      modifies baseServer`players, this`gameServerStateUpdates, this`outbox, this`shutdownScheduled
      ensures IndexOfConnection(old(baseServer.players), conn).None? ==> baseServer.players == old(baseServer.players)
      ensures IndexOfConnection(old(baseServer.players), conn).Some? ==>
                baseServer.players == RemoveAt(old(baseServer.players), IndexOfConnection(old(baseServer.players), conn).value)
      ensures gameServerStateUpdates == old(gameServerStateUpdates) + [|baseServer.players|]
      ensures LatestCountQueued()
      ensures !(IndexOfConnection(old(baseServer.players), conn).Some? && closeWhenEmpty) ==>
                outbox == old(outbox) && shutdownScheduled == old(shutdownScheduled)
      ensures IndexOfConnection(old(baseServer.players), conn).Some? && closeWhenEmpty && |baseServer.players| == 0 ==>
                outbox == old(outbox) + ClosingSends(isStandalone, ToAddress(zoneServerIp, zoneServerPort),
                                                     gameServerPort, MasterEndpoint(), gameToMaster)
                && shutdownScheduled == (old(shutdownScheduled) || gameToMaster != NoClient)
      ensures |baseServer.players| > 0 ==> outbox == old(outbox) && shutdownScheduled == old(shutdownScheduled)
    {
      var oldNumPlayers := |baseServer.players|;
      baseServer.RemovePlayer(conn);
      gameServerStateUpdates := gameServerStateUpdates + [|baseServer.players|];
      if oldNumPlayers != |baseServer.players| {
        if closeWhenEmpty {
          CloseWhenEmpty();
        }
      }
    }

    /** OnDisconnected, reaching the RemovePlayer override, then the add-on notices. When
        the last player leaves a server that closes when empty, the closing sends go out. */
    method OnDisconnected(conn: Connection)
      modifies baseServer`players, baseServer`disconnectNotices, this`gameServerStateUpdates, this`outbox,
               this`shutdownScheduled
      ensures IndexOfConnection(old(baseServer.players), conn).None? ==> baseServer.players == old(baseServer.players)
      ensures IndexOfConnection(old(baseServer.players), conn).Some? ==>
                baseServer.players == RemoveAt(old(baseServer.players), IndexOfConnection(old(baseServer.players), conn).value)
      ensures gameServerStateUpdates == old(gameServerStateUpdates) + [|baseServer.players|]
      ensures LatestCountQueued()
      ensures !(IndexOfConnection(old(baseServer.players), conn).Some? && closeWhenEmpty) ==>
                outbox == old(outbox) && shutdownScheduled == old(shutdownScheduled)
      ensures IndexOfConnection(old(baseServer.players), conn).Some? && closeWhenEmpty && |baseServer.players| == 0 ==>
                outbox == old(outbox) + ClosingSends(isStandalone, ToAddress(zoneServerIp, zoneServerPort),
                                                     gameServerPort, MasterEndpoint(), gameToMaster)
                && shutdownScheduled == (old(shutdownScheduled) || gameToMaster != NoClient)
      ensures |baseServer.players| > 0 ==> outbox == old(outbox) && shutdownScheduled == old(shutdownScheduled)
      ensures baseServer.disconnectNotices == old(baseServer.disconnectNotices)
                + seq(|baseServer.addons|, i requires 0 <= i < |baseServer.addons| => DisconnectNotice(baseServer.addons[i], conn))
    {
      RemovePlayer(conn);
      baseServer.NotifyAddonsOfDisconnect(conn);
    }

    /** OnPlayerInfoReceived, reaching the AddPlayer override for an unknown connection:
        a rename queues no update, an addition queues one. */
    method OnPlayerInfoReceived(conn: Connection, username: NullableString)
      modifies baseServer`players, this`gameServerStateUpdates
      ensures IndexOfConnection(old(baseServer.players), conn).Some? ==>
                var i := IndexOfConnection(old(baseServer.players), conn).value;
                baseServer.players == old(baseServer.players)[i := Player(conn, username)]
                && gameServerStateUpdates == old(gameServerStateUpdates)
      ensures IndexOfConnection(old(baseServer.players), conn).None? ==>
                baseServer.players == old(baseServer.players) + [Player(conn, username)]
                && gameServerStateUpdates == old(gameServerStateUpdates) + [|baseServer.players|]
      ensures old(LatestCountQueued()) ==> LatestCountQueued()
    {
      var found := IndexOfConnection(baseServer.players, conn);
      if found.Some? {
        baseServer.players := baseServer.players[found.value := baseServer.players[found.value].(name := username)];
      } else {
        AddPlayer(conn, username);
      }
    }
  }
}
