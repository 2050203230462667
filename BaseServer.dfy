/** BaseServer.cs: the list of players connected to a server (master, zone or game), kept
    in arrival order, with add, remove and rename, and the disconnect handler that removes
    the player and then tells every add-on of the server. */
module BaseServer {
  import opened Common

  /** `players.Find(x => x.connection == conn)`: index of the first player on that connection. */
  function IndexOfConnection(players: seq<Player>, conn: Connection): (r: Option<nat>)
    ensures r.None? <==> forall j :: 0 <= j < |players| ==> players[j].connection != conn
    ensures r.Some? ==> r.value < |players| && players[r.value].connection == conn
    ensures r.Some? ==> forall j :: 0 <= j < r.value ==> players[j].connection != conn
  {
    if |players| == 0 then None
    else if players[0].connection == conn then Some(0)
    else match IndexOfConnection(players[1..], conn)
      case None => None
      case Some(i) => Some(i + 1)
  }

  /** `players.Find(x => x.name == name)`: index of the first player with that name. */
  function IndexOfName(players: seq<Player>, name: NullableString): (r: Option<nat>)
    ensures r.None? <==> forall j :: 0 <= j < |players| ==> players[j].name != name
    ensures r.Some? ==> r.value < |players| && players[r.value].name == name
    ensures r.Some? ==> forall j :: 0 <= j < r.value ==> players[j].name != name
  {
    if |players| == 0 then None
    else if players[0].name == name then Some(0)
    else match IndexOfName(players[1..], name)
      case None => None
      case Some(i) => Some(i + 1)
  }

  /** At most one player per connection. */
  ghost predicate AtMostOnePerConnection(players: seq<Player>) {
    forall i, j :: 0 <= i < j < |players| ==> players[i].connection != players[j].connection
  }

  /** When connections are unique, removing the player found for a connection leaves no
      player on that connection, and the rest keep their order. */
  lemma {:induction false} RemovingFoundPlayerClearsConnection(players: seq<Player>, conn: Connection)
    requires AtMostOnePerConnection(players)
    requires IndexOfConnection(players, conn).Some?
    ensures var rest := RemoveAt(players, IndexOfConnection(players, conn).value);
            AtMostOnePerConnection(rest)
            && forall j :: 0 <= j < |rest| ==> rest[j].connection != conn
  {
    var i := IndexOfConnection(players, conn).value;
    var rest := RemoveAt(players, i);
    forall j | 0 <= j < |rest| ensures rest[j].connection != conn {
      if j >= i {
        assert rest[j] == players[j + 1];
      }
    }
    forall a, b | 0 <= a < b < |rest| ensures rest[a].connection != rest[b].connection {
      var a' := if a < i then a else a + 1;
      var b' := if b < i then b else b + 1;
      assert rest[a] == players[a'] && rest[b] == players[b'];
    }
  }

  /** The add-ons a server is composed of; GetComponents<ServerAddon>() in the source. */
  datatype AddonKind = AuthenticationAddon | GameRoomsMasterAddon | GameRoomsZoneAddon | ChatAddon

  /** One call of `addon.OnDisconnectedFromBaseServer(conn)`, recorded rather than
      dispatched: the add-ons' handlers (GameRoomsMasterServerAddon's, for one) are
      separate methods of their own classes, and nothing here invokes them, so a notice
      states that the call happens, not what the add-on then does. */
  datatype DisconnectNotice = DisconnectNotice(addon: AddonKind, conn: Connection)

  class BaseServer {
    var players: seq<Player>
    const addons: seq<AddonKind>
    /** The add-on notifications issued so far, in order. */
    var disconnectNotices: seq<DisconnectNotice>

    constructor (addons: seq<AddonKind>)
      ensures players == [] && this.addons == addons && disconnectNotices == []
    {
      players := [];
      this.addons := addons;
      disconnectNotices := [];
    }

    /** AddPlayer: a no-op when the connection already has a player; otherwise appends
        exactly one player at the end. Keeps connections unique. */
    method AddPlayer(conn: Connection, username: NullableString)
      modifies this`players
      ensures IndexOfConnection(old(players), conn).Some? ==> players == old(players)
      ensures IndexOfConnection(old(players), conn).None? ==> players == old(players) + [Player(conn, username)]
      ensures old(AtMostOnePerConnection(players)) ==> AtMostOnePerConnection(players)
      ensures IndexOfConnection(players, conn).Some?
    {
      var found := IndexOfConnection(players, conn);
      if found.None? {
        players := players + [Player(conn, username)];
        assert players[|players| - 1].connection == conn;
      }
    }

    /** RemovePlayer: removes the first player on that connection, keeping the others in
        order; a no-op when there is none. Keeps connections unique. */
    method RemovePlayer(conn: Connection)
      modifies this`players
      ensures IndexOfConnection(old(players), conn).None? ==> players == old(players)
      ensures IndexOfConnection(old(players), conn).Some? ==>
                players == RemoveAt(old(players), IndexOfConnection(old(players), conn).value)
      ensures old(AtMostOnePerConnection(players)) ==>
                AtMostOnePerConnection(players) && IndexOfConnection(players, conn).None?
    {
      var found := IndexOfConnection(players, conn);
      if found.Some? {
        if AtMostOnePerConnection(players) {
          RemovingFoundPlayerClearsConnection(players, conn);
        }
        players := RemoveAt(players, found.value);
      }
    }

    /** OnPlayerInfoReceived (SendPlayerData): renames the player of a known connection and
        changes nobody else; adds a player for an unknown one. Keeps connections unique. */
    method OnPlayerInfoReceived(conn: Connection, username: NullableString)
      modifies this`players
      ensures IndexOfConnection(old(players), conn).Some? ==>
                var i := IndexOfConnection(old(players), conn).value;
                players == old(players)[i := Player(conn, username)]
      ensures IndexOfConnection(old(players), conn).None? ==> players == old(players) + [Player(conn, username)]
      ensures old(AtMostOnePerConnection(players)) ==> AtMostOnePerConnection(players)
    {
      var found := IndexOfConnection(players, conn);
      if found.Some? {
        players := players[found.value := players[found.value].(name := username)];
      } else {
        AddPlayer(conn, username);
      }
    }

    /** The foreach of OnDisconnected: notifies every add-on, in order, of the connection. */
    method NotifyAddonsOfDisconnect(conn: Connection)
      modifies this`disconnectNotices
      ensures disconnectNotices == old(disconnectNotices) + seq(|addons|, i requires 0 <= i < |addons| => DisconnectNotice(addons[i], conn))
    {
      var k := 0;
      while k < |addons|
        invariant 0 <= k <= |addons|
        invariant disconnectNotices == old(disconnectNotices) + seq(k, i requires 0 <= i < k => DisconnectNotice(addons[i], conn))
      {
        disconnectNotices := disconnectNotices + [DisconnectNotice(addons[k], conn)];
        k := k + 1;
      }
    }

    /** OnDisconnected: removes the player, then notifies every add-on in order with the
        same connection. */
    method OnDisconnected(conn: Connection)
      modifies this`players, this`disconnectNotices
      ensures IndexOfConnection(old(players), conn).None? ==> players == old(players)
      ensures IndexOfConnection(old(players), conn).Some? ==>
                players == RemoveAt(old(players), IndexOfConnection(old(players), conn).value)
      ensures disconnectNotices == old(disconnectNotices) + seq(|addons|, i requires 0 <= i < |addons| => DisconnectNotice(addons[i], conn))
    {
      RemovePlayer(conn);
      NotifyAddonsOfDisconnect(conn);
    }
  }
}
