/** ChatServerAddon.cs: public chat text goes to every connected player; private chat text
    goes to the sender (as an echo) and to the first player carrying the recipient's name.
    In both cases the sender field is replaced by the name of the player on the sending
    connection, when there is one; channel and text are forwarded unchanged. */
module ChatServerAddon {
  import opened Common
  import opened Protocol
  import opened BaseServer

  /** The sender name a forwarded message carries: the name of the player on the sending
      connection, or the name as received when that connection has no player. */
  function StampedSender(players: seq<Player>, conn: Connection, received: NullableString): (r: NullableString)
    ensures IndexOfConnection(players, conn).Some? ==>
              exists j :: 0 <= j < |players| && players[j].connection == conn && r == players[j].name
                          && forall k :: 0 <= k < j ==> players[k].connection != conn
    ensures IndexOfConnection(players, conn).None? ==> r == received
  {
    match IndexOfConnection(players, conn)
    case Some(i) => players[i].name
    case None => received
  }

  /** The private-message recipient list: the sender if the sending connection has a
      player, then the first player whose name equals the recipient, if any. */
  function PrivateRecipients(players: seq<Player>, conn: Connection, recipient: NullableString): (r: seq<Player>)
    ensures forall k :: 0 <= k < |r| ==> r[k] in players
    ensures |r| == (if IndexOfConnection(players, conn).Some? then 1 else 0)
                   + (if IndexOfName(players, recipient).Some? then 1 else 0)
    // the sender is the first player on the sending connection
    ensures IndexOfConnection(players, conn).Some? ==>
              exists j :: 0 <= j < |players| && r[0] == players[j] && players[j].connection == conn
                          && forall k :: 0 <= k < j ==> players[k].connection != conn
    // the recipient is the first player carrying the recipient's name
    ensures IndexOfName(players, recipient).Some? ==>
              exists j :: 0 <= j < |players| && r[|r| - 1] == players[j] && players[j].name == recipient
                          && forall k :: 0 <= k < j ==> players[k].name != recipient
    ensures IndexOfName(players, recipient).Some? && IndexOfConnection(players, conn).None? ==>
              r == [players[IndexOfName(players, recipient).value]]
  {
    var senders := match IndexOfConnection(players, conn)
      case Some(i) => [players[i]]
      case None => [];
    var recipients := match IndexOfName(players, recipient)
      case Some(j) => [players[j]]
      case None => [];
    senders + recipients
  }

  /** An unknown recipient: only the sender's echo is delivered. */
  lemma {:induction false} UnknownRecipientGetsOnlyEcho(players: seq<Player>, conn: Connection, recipient: NullableString)
    requires IndexOfName(players, recipient).None?
    ensures PrivateRecipients(players, conn, recipient) ==
              if IndexOfConnection(players, conn).Some? then [players[IndexOfConnection(players, conn).value]] else []
  {
  }

  /** A private message addressed to the sender's own name, when the sender is the first
      player of that name, is delivered to the sender twice. */
  lemma {:induction false} MessageToSelfDeliveredTwice(players: seq<Player>, conn: Connection, i: nat)
    requires IndexOfConnection(players, conn) == Some(i)
    requires IndexOfName(players, players[i].name) == Some(i)
    ensures PrivateRecipients(players, conn, players[i].name) == [players[i], players[i]]
  {
  }

  /** One send of `m` to each of `recipients`, in order. */
  function Deliveries(recipients: seq<Player>, m: Message): (r: seq<Envelope>)
    ensures |r| == |recipients|
    ensures forall k :: 0 <= k < |r| ==> r[k] == Envelope(ToConnection(recipients[k].connection), m)
  {
    seq(|recipients|, k requires 0 <= k < |recipients| => Envelope(ToConnection(recipients[k].connection), m))
  }

  class ChatServerAddon {
    const baseServer: BaseServer
    var outbox: seq<Envelope>

    constructor (baseServer: BaseServer)
      ensures this.baseServer == baseServer && outbox == []
    {
      this.baseServer := baseServer;
      outbox := [];
    }

    /** Sends `m` to each of `recipients` in order. */
    method SendToEach(recipients: seq<Player>, m: Message)
      modifies this`outbox
      ensures outbox == old(outbox) + Deliveries(recipients, m)
    {
      var k := 0;
      while k < |recipients|
        invariant 0 <= k <= |recipients|
        invariant outbox == old(outbox) + Deliveries(recipients[..k], m)
      {
        assert recipients[..k + 1] == recipients[..k] + [recipients[k]];
        outbox := outbox + [Envelope(ToConnection(recipients[k].connection), m)];
        k := k + 1;
      }
      assert recipients[..k] == recipients;
    }

    /** OnReceivedPublicChatText: one send to every connected player, in list order, of
        the message with its sender stamped; channel and text unchanged. */
    method OnReceivedPublicChatText(conn: Connection, msg: SendPublicChatTextMessage)
      modifies this`outbox
      ensures var stamped := msg.(sender := StampedSender(baseServer.players, conn, msg.sender));
              outbox == old(outbox) + Deliveries(baseServer.players, SendPublicChatText(stamped))
    {
      var sender := IndexOfConnection(baseServer.players, conn);
      var forwarded := msg;
      if sender.Some? {
        forwarded := forwarded.(sender := baseServer.players[sender.value].name);
      }
      SendToEach(baseServer.players, SendPublicChatText(forwarded));
    }

    /** OnReceivedPrivateChatText: one send of the stamped message to each player of
        PrivateRecipients, in that order. */
    method OnReceivedPrivateChatText(conn: Connection, msg: SendPrivateChatTextMessage)
      modifies this`outbox
      ensures var stamped := msg.(sender := StampedSender(baseServer.players, conn, msg.sender));
              outbox == old(outbox) + Deliveries(PrivateRecipients(baseServer.players, conn, msg.recipient),
                                                 SendPrivateChatText(stamped))
    {
      var players: seq<Player> := [];
      var forwarded := msg;
      var sender := IndexOfConnection(baseServer.players, conn);
      if sender.Some? {
        forwarded := forwarded.(sender := baseServer.players[sender.value].name);
        players := players + [baseServer.players[sender.value]];
      }
      var recipient := IndexOfName(baseServer.players, msg.recipient);
      if recipient.Some? {
        players := players + [baseServer.players[recipient.value]];
      }
      SendToEach(players, SendPrivateChatText(forwarded));
    }
  }
}
