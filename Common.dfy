/** Shared value types of MasterServerKit: the error enumerations (Errors.cs),
    room properties (Property.cs), players (Player.cs) and network connections. */
module Common {

  /** A value that may be absent; used for C# references that can be null. */
  datatype Option<+T> = None | Some(value: T)

  /** A C# string, which may be null. `None` is null, `Some("")` is the empty string,
      and C#'s `==` on strings is equality of these values. */
  type NullableString = Option<string>

  /** The outcome of an operation that reports either a value or an error,
      standing for a pair of success/error callbacks of which exactly one runs. */
  datatype Result<+R, +E> = Success(value: R) | Failure(error: E)

  // ---- Errors.cs. The first constructor of each enumeration is the C# default value (0),
  // ---- which is what a response message carries when its error field is never assigned.

  datatype RegistrationError =
    | DatabaseConnectionError
    | MissingEmailAddress
    | MissingUsername
    | MissingPassword
    | AlreadyExistingEmailAddress
    | AlreadyExistingUsername

  datatype LoginError =
    | DatabaseConnectionError
    | MissingUsername
    | MissingPassword
    | NonexistingUser
    | InvalidCredentials
    | ServerFull
    | AuthenticationRequired
    | UserAlreadyLoggedIn

  datatype CreateGameRoomError = ZoneServerUnavailable

  datatype JoinGameRoomError = GameFull | GameExpired | InvalidPassword

  /** Property.cs: a name/value pair attached to a room and used as a search filter.
      Either string may be null; the filters compare them with C# `==`, under which two
      nulls are equal, as `Option` equality has it. */
  datatype Property = Property(name: NullableString, value: NullableString)

  /** A network connection. `handle` is the object's identity (C# reference equality);
      `connectionId` is the integer the transport assigns, which two different
      connections (on different hosts) may share. */
  datatype Connection = Connection(handle: nat, connectionId: int)

  /** Player.cs: a connected player. `name` is mutable in the source; the model
      replaces the list element instead. */
  datatype Player = Player(connection: Connection, name: NullableString)

  /** The sequence `s` with the element at index `i` removed (List.Remove of a found element). */
  function RemoveAt<T>(s: seq<T>, i: nat): (r: seq<T>)
    requires i < |s|
    ensures |r| == |s| - 1
    ensures forall j :: 0 <= j < i ==> r[j] == s[j]
    ensures forall j :: i <= j < |r| ==> r[j] == s[j + 1]
  {
    s[..i] + s[i + 1..]
  }
}
