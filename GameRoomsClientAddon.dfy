/** GameRoomsClientAddon.cs: the client side of the game rooms. Each request stores its
    callbacks and sends one message to the master server; each response runs the callback
    stored for it. The ping and find callbacks stay stored and run on every later response;
    the create and join pairs are single-shot (ClientCallbacks). PlayNow arms the
    join-success slot and the create pair, but not the join-error slot.

    The master connection is the client's only one, so `outbox` holds bare messages.
    Callback runs are recorded in `invocations`, in order. */
module GameRoomsClientAddon {
  import opened Common
  import opened Protocol
  import opened ClientCallbacks

  datatype Invocation =
    | Pinged(callback: CallbackId, numConnectedPlayers: int)
    | GamesFound(callback: CallbackId, games: seq<SpawnedGameNetwork>)
    | RoomCreated(callback: CallbackId, ip: NullableString, port: int)
    | RoomNotCreated(callback: CallbackId, createError: CreateGameRoomError)
    | RoomJoined(callback: CallbackId, ip: NullableString, port: int)
    | RoomNotJoined(callback: CallbackId, joinError: JoinGameRoomError)

  /** The create request as the client builds it: playerConnectionId is not assigned and
      keeps 0, the master stamps the sender's id on it. */
  function CreateRequest(name: NullableString, maxPlayers: int, password: NullableString, properties: seq<Property>)
    : (m: Message)
    ensures m.RequestCreateGameRoom? && m.create.playerConnectionId == 0
    ensures m.create.name == name && m.create.maxPlayers == maxPlayers
    ensures m.create.password == password && m.create.properties == properties
  {
    RequestCreateGameRoom(RequestCreateGameRoomMessage(0, name, maxPlayers, password, properties))
  }

  /** The callback a create response runs, as an invocation record. */
  function CreateInvocation(ran: Option<CallbackId>, msg: ResponseCreateGameRoomMessage): (r: seq<Invocation>)
    ensures |r| == Armed(ran)
    ensures ran.Some? && msg.success ==> r == [RoomCreated(ran.value, msg.ip, msg.port)]
    ensures ran.Some? && !msg.success ==> r == [RoomNotCreated(ran.value, msg.error)]
  {
    if ran.None? then []
    else if msg.success then [RoomCreated(ran.value, msg.ip, msg.port)]
    else [RoomNotCreated(ran.value, msg.error)]
  }

  /** The callback a join response runs, as an invocation record. */
  function JoinInvocation(ran: Option<CallbackId>, msg: ResponseJoinGameRoomMessage): (r: seq<Invocation>)
    ensures |r| == Armed(ran)
    ensures ran.Some? && msg.success ==> r == [RoomJoined(ran.value, msg.ip, msg.port)]
    ensures ran.Some? && !msg.success ==> r == [RoomNotJoined(ran.value, msg.error)]
  {
    if ran.None? then []
    else if msg.success then [RoomJoined(ran.value, msg.ip, msg.port)]
    else [RoomNotJoined(ran.value, msg.error)]
  }

  class GameRoomsClientAddon {
    var pingCallback: Option<CallbackId>
    var findGameRoomsCallback: Option<CallbackId>
    /** createGameRoomSuccessCallback and createGameRoomErrorCallback. */
    var createCallbacks: SlotPair
    /** joinGameRoomSuccessCallback and joinGameRoomErrorCallback. */
    var joinCallbacks: SlotPair
    var invocations: seq<Invocation>
    var outbox: seq<Message>

    constructor ()
      ensures pingCallback == None && findGameRoomsCallback == None
      ensures createCallbacks == SlotPair(None, None) && joinCallbacks == SlotPair(None, None)
      ensures invocations == [] && outbox == []
    {
      pingCallback := None;
      findGameRoomsCallback := None;
      createCallbacks := SlotPair(None, None);
      joinCallbacks := SlotPair(None, None);
      invocations := [];
      outbox := [];
    }

    method Ping(callback: Option<CallbackId>)
      modifies this`pingCallback, this`outbox
      ensures pingCallback == callback
      ensures outbox == old(outbox) + [RequestPing]
    {
      pingCallback := callback;
      outbox := outbox + [RequestPing];
    }

    /** OnResponsePing: runs the ping callback, which stays stored. */
    method OnResponsePing(numConnectedPlayers: int)
      modifies this`invocations
      ensures pingCallback.None? ==> invocations == old(invocations)
      ensures pingCallback.Some? ==> invocations == old(invocations) + [Pinged(pingCallback.value, numConnectedPlayers)]
    {
      if pingCallback.Some? {
        invocations := invocations + [Pinged(pingCallback.value, numConnectedPlayers)];
      }
    }

    method FindGameRooms(includeProperties: seq<Property>, excludeProperties: seq<Property>,
                         callback: Option<CallbackId>)
      modifies this`findGameRoomsCallback, this`outbox
      ensures findGameRoomsCallback == callback
      ensures outbox == old(outbox) + [RequestFindGameRooms(includeProperties, excludeProperties)]
    {
      findGameRoomsCallback := callback;
      outbox := outbox + [RequestFindGameRooms(includeProperties, excludeProperties)];
    }

    /** OnListGamesReceived: runs the find callback with the games, which stays stored. */
    method OnListGamesReceived(games: seq<SpawnedGameNetwork>)
      modifies this`invocations
      ensures findGameRoomsCallback.None? ==> invocations == old(invocations)
      ensures findGameRoomsCallback.Some? ==>
                invocations == old(invocations) + [GamesFound(findGameRoomsCallback.value, games)]
    {
      if findGameRoomsCallback.Some? {
        invocations := invocations + [GamesFound(findGameRoomsCallback.value, games)];
      }
    }

    /** CreateGameRoom: arms both create slots, then sends one request. */
    method CreateGameRoom(name: NullableString, maxPlayers: int, password: NullableString, properties: seq<Property>,
                          successCallback: Option<CallbackId>, errorCallback: Option<CallbackId>)
      modifies this`createCallbacks, this`outbox
      ensures createCallbacks == SlotPair(successCallback, errorCallback)
      ensures outbox == old(outbox) + [CreateRequest(name, maxPlayers, password, properties)]
    {
      createCallbacks := SlotPair(successCallback, errorCallback);
      outbox := outbox + [CreateRequest(name, maxPlayers, password, properties)];
    }

    /** OnResponseCreateRoom: runs and empties the create slot the response matches. */
    method OnResponseCreateRoom(msg: ResponseCreateGameRoomMessage)
      modifies this`createCallbacks, this`invocations
      ensures createCallbacks == Answer(old(createCallbacks), msg.success).slots
      ensures invocations == old(invocations) + CreateInvocation(Answer(old(createCallbacks), msg.success).ran, msg)
    {
      var answered := Answer(createCallbacks, msg.success);
      createCallbacks := answered.slots;
      invocations := invocations + CreateInvocation(answered.ran, msg);
    }

    /** JoinGameRoom: arms both join slots, then sends one request. */
    method JoinGameRoom(id: int, password: NullableString,
                        successCallback: Option<CallbackId>, errorCallback: Option<CallbackId>)
      modifies this`joinCallbacks, this`outbox
      ensures joinCallbacks == SlotPair(successCallback, errorCallback)
      ensures outbox == old(outbox) + [RequestJoinGameRoom(id, password)]
    {
      joinCallbacks := SlotPair(successCallback, errorCallback);
      outbox := outbox + [RequestJoinGameRoom(id, password)];
    }

    /** OnResponseJoinRoom: runs and empties the join slot the response matches. */
    method OnResponseJoinRoom(msg: ResponseJoinGameRoomMessage)
      modifies this`joinCallbacks, this`invocations
      ensures joinCallbacks == Answer(old(joinCallbacks), msg.success).slots
      ensures invocations == old(invocations) + JoinInvocation(Answer(old(joinCallbacks), msg.success).ran, msg)
    {
      var answered := Answer(joinCallbacks, msg.success);
      joinCallbacks := answered.slots;
      invocations := invocations + JoinInvocation(answered.ran, msg);
    }

    /** PlayNow: the join callback goes to the join-success slot and the create callbacks to
        the create pair; the join-error slot keeps whatever an earlier JoinGameRoom left. */
    method PlayNow(joinCallback: Option<CallbackId>,
                   createSuccessCallback: Option<CallbackId>, createErrorCallback: Option<CallbackId>)
      modifies this`joinCallbacks, this`createCallbacks, this`outbox
      ensures joinCallbacks == SlotPair(joinCallback, old(joinCallbacks.error))
      ensures createCallbacks == SlotPair(createSuccessCallback, createErrorCallback)
      ensures outbox == old(outbox) + [RequestPlayNow]
    {
      joinCallbacks := joinCallbacks.(success := joinCallback);
      createCallbacks := SlotPair(createSuccessCallback, createErrorCallback);
      outbox := outbox + [RequestPlayNow];
    }
  }

  /** A failed join after PlayNow runs the error callback of an earlier JoinGameRoom, not
      any callback of PlayNow's caller. */
  lemma PlayNowJoinFailureReachesEarlierErrorCallback(earlierError: CallbackId, joinCallback: CallbackId,
                                                      error: JoinGameRoomError)
    ensures var slots := SlotPair(Some(joinCallback), Some(earlierError));
            var answered := Answer(slots, false);
            JoinInvocation(answered.ran, ResponseJoinGameRoomMessage(false, error, None, 0))
              == [RoomNotJoined(earlierError, error)]
  {
  }
}
