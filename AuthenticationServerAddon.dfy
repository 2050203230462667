/** AuthenticationServerAddon.cs: the master server's login and registration handlers.
    Login first runs the IsJoinAllowed chain (duplicate name, server full, guest policy);
    a rejection is answered at once. An accepted guest is added under the configured
    guest name; any other login goes to the account store, and the player is added only
    when the store accepts. The account store is the in-memory NoDBProvider, whose calls
    complete before returning. */
module AuthenticationServerAddon {
  import opened Common
  import opened Protocol
  import opened BaseServer
  import opened CryptoUtils
  import opened NoDBProvider

  /** The MasterServer.cs settings the add-on reads. */
  datatype MasterServerConfig = MasterServerConfig(
    allowGuests: bool, playerLimit: bool, maxPlayers: int, guestName: NullableString)

  /** IsJoinAllowed: the checks, in order, that precede any store call. A rejection carries
      its error; an acceptance carries the default error and no username. */
  function IsJoinAllowed(players: seq<Player>, config: MasterServerConfig, msg: RequestPlayerLoginMessage)
    : (r: ResponsePlayerLoginMessage)
    ensures r.username == None
    // a named login whose name is already connected is refused first, even on a full server
    ensures !msg.isAnonymous && IndexOfName(players, msg.username).Some? ==> r == ResponsePlayerLoginMessage(false, UserAlreadyLoggedIn, None)
    // the capacity check comes before the guest policy
    ensures (msg.isAnonymous || IndexOfName(players, msg.username).None?) && config.playerLimit && |players| >= config.maxPlayers
            ==> r == ResponsePlayerLoginMessage(false, ServerFull, None)
    ensures msg.isAnonymous && !(config.playerLimit && |players| >= config.maxPlayers) && !config.allowGuests
            ==> r == ResponsePlayerLoginMessage(false, AuthenticationRequired, None)
    ensures r.success <==>
              (msg.isAnonymous || IndexOfName(players, msg.username).None?)
              && !(config.playerLimit && |players| >= config.maxPlayers)
              && (msg.isAnonymous ==> config.allowGuests)
    ensures r.success ==> r.error == LoginError.DatabaseConnectionError
  {
    if !msg.isAnonymous && IndexOfName(players, msg.username).Some? then
      ResponsePlayerLoginMessage(false, UserAlreadyLoggedIn, None)
    else if config.playerLimit && |players| >= config.maxPlayers then
      ResponsePlayerLoginMessage(false, ServerFull, None)
    else if msg.isAnonymous then
      if !config.allowGuests then ResponsePlayerLoginMessage(false, AuthenticationRequired, None)
      else ResponsePlayerLoginMessage(true, LoginError.DatabaseConnectionError, None)
    else
      ResponsePlayerLoginMessage(true, LoginError.DatabaseConnectionError, None)
  }

  /** A guest login under a duplicate-free name check: guests are never refused for their
      name, only for capacity or policy. */
  lemma {:induction false} GuestsSkipDuplicateNameCheck(players: seq<Player>, config: MasterServerConfig, password: NullableString, username: NullableString)
    requires config.allowGuests && !(config.playerLimit && |players| >= config.maxPlayers)
    ensures IsJoinAllowed(players, config, RequestPlayerLoginMessage(true, username, password)).success
  {
  }

  /** The registration response for a store outcome. */
  function RegistrationResponse(outcome: Result<string, RegistrationError>): (r: ResponsePlayerRegistrationMessage)
    ensures r.success <==> outcome.Success?
    ensures outcome.Failure? ==> r.error == outcome.error
  {
    match outcome
    case Success(_) => ResponsePlayerRegistrationMessage(true, RegistrationError.DatabaseConnectionError)
    case Failure(e) => ResponsePlayerRegistrationMessage(false, e)
  }

  class AuthenticationServerAddon {
    const baseServer: BaseServer
    const config: MasterServerConfig
    const database: NoDBProvider
    var outbox: seq<Envelope>

    constructor (baseServer: BaseServer, config: MasterServerConfig, database: NoDBProvider)
      ensures this.baseServer == baseServer && this.config == config && this.database == database
      ensures outbox == []
    {
      this.baseServer := baseServer;
      this.config := config;
      this.database := database;
      outbox := [];
    }

    /** OnPlayerLoginRequested: exactly one login response. A refusal by IsJoinAllowed is
        sent as is and adds no player; an accepted guest is appended directly (without
        AddPlayer's duplicate-connection check) under the guest name; a named login is
        appended only when the store accepts, and a store error is forwarded unchanged. */
    method OnPlayerLoginRequested(conn: Connection, msg: RequestPlayerLoginMessage)
      requires database.Valid()
      modifies this`outbox, baseServer`players
      ensures var verdict := IsJoinAllowed(old(baseServer.players), config, msg);
              var outcome := LoginOutcome(database.users, msg.username, msg.password, database.kdf, database.codec);
              if !verdict.success then
                baseServer.players == old(baseServer.players)
                && outbox == old(outbox) + [Envelope(ToConnection(conn), ResponsePlayerLogin(verdict))]
              else if msg.isAnonymous then
                baseServer.players == old(baseServer.players) + [Player(conn, config.guestName)]
                && outbox == old(outbox) + [Envelope(ToConnection(conn), ResponsePlayerLogin(
                                              ResponsePlayerLoginMessage(true, verdict.error, config.guestName)))]
              else if outcome.Success? then
                baseServer.players == old(baseServer.players) + [Player(conn, msg.username)]
                && outbox == old(outbox) + [Envelope(ToConnection(conn), ResponsePlayerLogin(
                                              ResponsePlayerLoginMessage(true, verdict.error, msg.username)))]
              else
                baseServer.players == old(baseServer.players)
                && outbox == old(outbox) + [Envelope(ToConnection(conn), ResponsePlayerLogin(
                                              ResponsePlayerLoginMessage(false, outcome.error, None)))]
    {
      var responseMsg := IsJoinAllowed(baseServer.players, config, msg);
      if !responseMsg.success {
        outbox := outbox + [Envelope(ToConnection(conn), ResponsePlayerLogin(responseMsg))];
        return;
      }
      if msg.isAnonymous {
        var player := Player(conn, config.guestName);
        baseServer.players := baseServer.players + [player];
        responseMsg := responseMsg.(success := true, username := player.name);
        outbox := outbox + [Envelope(ToConnection(conn), ResponsePlayerLogin(responseMsg))];
      } else {
        var outcome := database.Login(msg.username, msg.password);
        match outcome {
          case Success(_) =>
            responseMsg := responseMsg.(success := true, username := msg.username);
            outbox := outbox + [Envelope(ToConnection(conn), ResponsePlayerLogin(responseMsg))];
            baseServer.players := baseServer.players + [Player(conn, msg.username)];
          case Failure(error) =>
            responseMsg := responseMsg.(success := false, error := error);
            outbox := outbox + [Envelope(ToConnection(conn), ResponsePlayerLogin(responseMsg))];
        }
      }
    }

    /** OnPlayerRegistrationRequested: exactly one registration response, success when the
        store registers the account and the store's error otherwise. `salt` is the random
        salt the store draws. */
    method OnPlayerRegistrationRequested(conn: Connection, msg: RequestPlayerRegistrationMessage, salt: Salt)
      requires database.Valid()
      modifies this`outbox, database
      ensures database.Valid()
      ensures var outcome := RegisterOutcome(old(database.users), msg.email, msg.username, msg.password);
              outbox == old(outbox) + [Envelope(ToConnection(conn), ResponsePlayerRegistration(RegistrationResponse(outcome)))]
              && (outcome.Failure? ==> database.users == old(database.users))
              && (outcome.Success? ==> |database.users| == |old(database.users)| + 1)
    {
      var outcome := database.Register(msg.email, msg.username, msg.password, salt);
      var responseMsg := RegistrationResponse(outcome);
      outbox := outbox + [Envelope(ToConnection(conn), ResponsePlayerRegistration(responseMsg))];
    }
  }
}
