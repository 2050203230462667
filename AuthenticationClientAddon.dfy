/** AuthenticationClientAddon.cs: the client side of login and registration. Login and
    LoginAsGuest arm the login pair, Register the registration pair; both pairs are
    single-shot (ClientCallbacks). A successful login response also stores the username
    the master answered with on the client (networkClient.username, here `username`),
    whether or not a callback is stored. */
module AuthenticationClientAddon {
  import opened Common
  import opened Protocol
  import opened ClientCallbacks

  datatype Invocation =
    | LoggedIn(callback: CallbackId)
    | LoginRefused(callback: CallbackId, loginError: LoginError)
    | Registered(callback: CallbackId)
    | RegistrationRefused(callback: CallbackId, registrationError: RegistrationError)

  /** The callback a login response runs, as an invocation record. */
  function LoginInvocation(ran: Option<CallbackId>, msg: ResponsePlayerLoginMessage): (r: seq<Invocation>)
    ensures |r| == Armed(ran)
    ensures ran.Some? && msg.success ==> r == [LoggedIn(ran.value)]
    ensures ran.Some? && !msg.success ==> r == [LoginRefused(ran.value, msg.error)]
  {
    if ran.None? then []
    else if msg.success then [LoggedIn(ran.value)]
    else [LoginRefused(ran.value, msg.error)]
  }

  /** The callback a registration response runs, as an invocation record. */
  function RegistrationInvocation(ran: Option<CallbackId>, msg: ResponsePlayerRegistrationMessage): (r: seq<Invocation>)
    ensures |r| == Armed(ran)
    ensures ran.Some? && msg.success ==> r == [Registered(ran.value)]
    ensures ran.Some? && !msg.success ==> r == [RegistrationRefused(ran.value, msg.error)]
  {
    if ran.None? then []
    else if msg.success then [Registered(ran.value)]
    else [RegistrationRefused(ran.value, msg.error)]
  }

  class AuthenticationClientAddon {
    /** networkClient.username. */
    var username: NullableString
    /** onPlayerLoginSuccess and onPlayerLoginError. */
    var loginCallbacks: SlotPair
    /** onPlayerRegistrationSuccess and onPlayerRegistrationError. */
    var registrationCallbacks: SlotPair
    var invocations: seq<Invocation>
    var outbox: seq<Message>

    constructor ()
      ensures username == None
      ensures loginCallbacks == SlotPair(None, None) && registrationCallbacks == SlotPair(None, None)
      ensures invocations == [] && outbox == []
    {
      username := None;
      loginCallbacks := SlotPair(None, None);
      registrationCallbacks := SlotPair(None, None);
      invocations := [];
      outbox := [];
    }

    /** OnResponsePlayerLogin: a success stores the answered username first; then the login
        slot the response matches runs and is emptied. A failure keeps the username. */
    method OnResponsePlayerLogin(msg: ResponsePlayerLoginMessage)
      modifies this`username, this`loginCallbacks, this`invocations
      ensures username == (if msg.success then msg.username else old(username))
      ensures loginCallbacks == Answer(old(loginCallbacks), msg.success).slots
      ensures invocations == old(invocations) + LoginInvocation(Answer(old(loginCallbacks), msg.success).ran, msg)
    {
      if msg.success {
        username := msg.username;
      }
      var answered := Answer(loginCallbacks, msg.success);
      loginCallbacks := answered.slots;
      invocations := invocations + LoginInvocation(answered.ran, msg);
    }

    /** OnResponsePlayerRegistration: the registration slot the response matches runs and
        is emptied; the other stays armed. */
    method OnResponsePlayerRegistration(msg: ResponsePlayerRegistrationMessage)
      modifies this`registrationCallbacks, this`invocations
      ensures registrationCallbacks == Answer(old(registrationCallbacks), msg.success).slots
      ensures invocations == old(invocations)
                + RegistrationInvocation(Answer(old(registrationCallbacks), msg.success).ran, msg)
    {
      var answered := Answer(registrationCallbacks, msg.success);
      registrationCallbacks := answered.slots;
      invocations := invocations + RegistrationInvocation(answered.ran, msg);
    }

    method Register(email: NullableString, username: NullableString, password: NullableString,
                    onSuccess: Option<CallbackId>, onError: Option<CallbackId>)
      modifies this`registrationCallbacks, this`outbox
      ensures registrationCallbacks == SlotPair(onSuccess, onError)
      ensures outbox == old(outbox) + [RequestPlayerRegistration(RequestPlayerRegistrationMessage(email, username, password))]
    {
      registrationCallbacks := SlotPair(onSuccess, onError);
      outbox := outbox + [RequestPlayerRegistration(RequestPlayerRegistrationMessage(email, username, password))];
    }

    /** Login: a named login request (isAnonymous false) with the given credentials. */
    method Login(username: NullableString, password: NullableString, onSuccess: Option<CallbackId>, onError: Option<CallbackId>)
      modifies this`loginCallbacks, this`outbox
      ensures loginCallbacks == SlotPair(onSuccess, onError)
      ensures outbox == old(outbox) + [RequestPlayerLogin(RequestPlayerLoginMessage(false, username, password))]
    {
      loginCallbacks := SlotPair(onSuccess, onError);
      outbox := outbox + [RequestPlayerLogin(RequestPlayerLoginMessage(false, username, password))];
    }

    /** LoginAsGuest: a guest login request (isAnonymous true) with no credentials. */
    method LoginAsGuest(onSuccess: Option<CallbackId>, onError: Option<CallbackId>)
      modifies this`loginCallbacks, this`outbox
      ensures loginCallbacks == SlotPair(onSuccess, onError)
      ensures outbox == old(outbox) + [RequestPlayerLogin(RequestPlayerLoginMessage(true, None, None))]
    {
      loginCallbacks := SlotPair(onSuccess, onError);
      outbox := outbox + [RequestPlayerLogin(RequestPlayerLoginMessage(true, None, None))];
    }
  }
}
