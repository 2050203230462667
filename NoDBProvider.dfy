/** NoDBProvider.cs: the in-memory account store. Users live in a list; registration
    validates the fields and the uniqueness of email and name, and stores the salted hash
    of the password; login checks the stored hash; each user has an int and a string
    property dictionary.

    Each operation of the source ends by calling exactly one of its onSuccess/onError
    callbacks and never yields before that; here it returns a `Result`. */
module NoDBProvider {
  import opened Common
  import opened StringUtils
  import opened CryptoUtils

  /** User (declared in LiteDBProvider.cs and shared by the providers). */
  datatype User = User(
    name: string, email: string, password: string,
    intProperties: map<string, int>, stringProperties: map<string, NullableString>)

  const UserDoesNotExist: string := "This user does not exist."
  const PropertyDoesNotExist: string := "This property does not exist."

  /** `users.Find(x => x.Name == username)`: the index of the first user with that name. */
  function IndexOfUser(users: seq<User>, username: NullableString): (r: Option<nat>)
    ensures r.None? <==> forall j :: 0 <= j < |users| ==> Some(users[j].name) != username
    ensures r.Some? ==> r.value < |users| && Some(users[r.value].name) == username
    ensures r.Some? ==> forall j :: 0 <= j < r.value ==> Some(users[j].name) != username
  {
    if |users| == 0 then None
    else if Some(users[0].name) == username then Some(0)
    else match IndexOfUser(users[1..], username)
      case None => None
      case Some(i) => Some(i + 1)
  }

  predicate EmailTaken(users: seq<User>, email: NullableString) {
    exists j :: 0 <= j < |users| && Some(users[j].email) == email
  }

  predicate NameTaken(users: seq<User>, username: NullableString) {
    exists j :: 0 <= j < |users| && Some(users[j].name) == username
  }

  /** No two users share an email address or a name. */
  ghost predicate UniqueAccounts(users: seq<User>) {
    forall i, j :: 0 <= i < j < |users| ==> users[i].email != users[j].email && users[i].name != users[j].name
  }

  /** Every stored password decodes to a salt-and-hash blob. */
  ghost predicate StoredPasswordsDecode(users: seq<User>, codec: Base64Codec) {
    forall i :: 0 <= i < |users| ==>
      codec.decode(users[i].password).Some? && |codec.decode(users[i].password).value| == SaltLength + HashLength
  }

  /** The verdict of Register: the first failing check in the order email, username,
      password, email collision, name collision. */
  function RegisterOutcome(users: seq<User>, email: NullableString, username: NullableString, password: NullableString)
    : (r: Result<string, RegistrationError>)
    ensures r == Failure(RegistrationError.MissingEmailAddress) <==> IsNullOrWhitespace(email)
    ensures r == Failure(RegistrationError.MissingUsername)
            <==> !IsNullOrWhitespace(email) && IsNullOrWhitespace(username)
    ensures r == Failure(RegistrationError.MissingPassword)
            <==> !IsNullOrWhitespace(email) && !IsNullOrWhitespace(username) && IsNullOrWhitespace(password)
    // an email collision is reported whether or not the name collides too
    ensures r == Failure(AlreadyExistingEmailAddress)
            <==> !IsNullOrWhitespace(email) && !IsNullOrWhitespace(username) && !IsNullOrWhitespace(password)
                 && EmailTaken(users, email)
    ensures r == Failure(AlreadyExistingUsername)
            <==> !IsNullOrWhitespace(email) && !IsNullOrWhitespace(username) && !IsNullOrWhitespace(password)
                 && !EmailTaken(users, email) && NameTaken(users, username)
    ensures r.Success? ==> username.Some? && r.value == username.value && !NameTaken(users, username)
    ensures r != Failure(RegistrationError.DatabaseConnectionError)
  {
    if IsNullOrWhitespace(email) then Failure(RegistrationError.MissingEmailAddress)
    else if IsNullOrWhitespace(username) then Failure(RegistrationError.MissingUsername)
    else if IsNullOrWhitespace(password) then Failure(RegistrationError.MissingPassword)
    else if EmailTaken(users, email) then Failure(AlreadyExistingEmailAddress)
    else if NameTaken(users, username) then Failure(AlreadyExistingUsername)
    else Success(username.value)
  }

  /** The verdict of Login: username, password, existence, then the hash check. */
  function LoginOutcome(users: seq<User>, username: NullableString, password: NullableString, kdf: Pbkdf2, codec: Base64Codec)
    : (r: Result<string, LoginError>)
    requires StoredPasswordsDecode(users, codec)
    ensures r == Failure(LoginError.MissingUsername) <==> IsNullOrWhitespace(username)
    ensures r == Failure(LoginError.MissingPassword) <==> !IsNullOrWhitespace(username) && IsNullOrWhitespace(password)
    ensures r == Failure(NonexistingUser)
            <==> !IsNullOrWhitespace(username) && !IsNullOrWhitespace(password) && !NameTaken(users, username)
    ensures r.Success? <==>
              !IsNullOrWhitespace(username) && !IsNullOrWhitespace(password) && IndexOfUser(users, username).Some?
              && HashMatches(password.value, codec.decode(users[IndexOfUser(users, username).value].password).value, kdf)
    ensures r.Success? ==> Some(r.value) == username
    ensures r.Failure? ==> r.error in {LoginError.MissingUsername, LoginError.MissingPassword, NonexistingUser, InvalidCredentials}
  {
    if IsNullOrWhitespace(username) then Failure(LoginError.MissingUsername)
    else if IsNullOrWhitespace(password) then Failure(LoginError.MissingPassword)
    else match IndexOfUser(users, username)
      case None => Failure(NonexistingUser)
      case Some(i) =>
        if HashMatches(password.value, codec.decode(users[i].password).value, kdf) then Success(username.value)
        else Failure(InvalidCredentials)
  }

  /** The verdict of GetIntProperty. */
  function GetIntOutcome(users: seq<User>, username: NullableString, key: string): (r: Result<int, string>)
    ensures r == Failure(UserDoesNotExist) <==> !NameTaken(users, username)
    ensures r.Success? <==> NameTaken(users, username) && key in users[IndexOfUser(users, username).value].intProperties
    ensures r.Success? ==> r.value == users[IndexOfUser(users, username).value].intProperties[key]
  {
    match IndexOfUser(users, username)
    case None => Failure(UserDoesNotExist)
    case Some(i) =>
      if key in users[i].intProperties then Success(users[i].intProperties[key]) else Failure(PropertyDoesNotExist)
  }

  /** The verdict of GetStringProperty. */
  function GetStringOutcome(users: seq<User>, username: NullableString, key: string): (r: Result<NullableString, string>)
    ensures r == Failure(UserDoesNotExist) <==> !NameTaken(users, username)
    ensures r.Success? <==> NameTaken(users, username) && key in users[IndexOfUser(users, username).value].stringProperties
    ensures r.Success? ==> r.value == users[IndexOfUser(users, username).value].stringProperties[key]
  {
    match IndexOfUser(users, username)
    case None => Failure(UserDoesNotExist)
    case Some(i) =>
      if key in users[i].stringProperties then Success(users[i].stringProperties[key]) else Failure(PropertyDoesNotExist)
  }

  /** The users after SetIntProperty: the named user's int dictionary maps the key to the
      value (added or overwritten); an unknown user changes nothing. */
  function WithIntProperty(users: seq<User>, username: NullableString, key: string, value: int): (r: seq<User>)
    ensures |r| == |users|
    ensures !NameTaken(users, username) ==> r == users
  {
    match IndexOfUser(users, username)
    case None => users
    case Some(i) => users[i := users[i].(intProperties := users[i].intProperties[key := value])]
  }

  /** The users after SetStringProperty. */
  function WithStringProperty(users: seq<User>, username: NullableString, key: string, value: NullableString): (r: seq<User>)
    ensures |r| == |users|
    ensures !NameTaken(users, username) ==> r == users
  {
    match IndexOfUser(users, username)
    case None => users
    case Some(i) => users[i := users[i].(stringProperties := users[i].stringProperties[key := value])]
  }

  /** A successful registration keeps emails and names unique. */
  lemma {:induction false} RegisterKeepsAccountsUnique(users: seq<User>, email: NullableString, username: NullableString,
                                                      password: NullableString, stored: string)
    requires UniqueAccounts(users)
    requires RegisterOutcome(users, email, username, password).Success?
    ensures UniqueAccounts(users + [User(username.value, email.value, stored, map[], map[])])
  {
    var added := User(username.value, email.value, stored, map[], map[]);
    var after := users + [added];
    forall i, j | 0 <= i < j < |after|
      ensures after[i].email != after[j].email && after[i].name != after[j].name
    {
      if j == |users| {
        assert after[i] == users[i];
        assert Some(users[i].email) != email;
        assert Some(users[i].name) != username;
      }
    }
  }

  /** Appending a user whose password decodes keeps every stored password decodable. */
  lemma {:induction false} AppendKeepsPasswordsDecoding(users: seq<User>, codec: Base64Codec, added: User)
    requires StoredPasswordsDecode(users, codec)
    requires codec.decode(added.password).Some? && |codec.decode(added.password).value| == SaltLength + HashLength
    ensures StoredPasswordsDecode(users + [added], codec)
  {
    var after := users + [added];
    forall i | 0 <= i < |after|
      ensures codec.decode(after[i].password).Some? && |codec.decode(after[i].password).value| == SaltLength + HashLength
    {
      if i < |users| {
        assert after[i] == users[i];
      }
    }
  }

  /** Setting an int property and reading it back gives the value set; setting it twice
      keeps only the last value. */
  lemma {:induction false} SetThenGetInt(users: seq<User>, username: NullableString, key: string, value: int)
    requires NameTaken(users, username)
    ensures GetIntOutcome(WithIntProperty(users, username, key, value), username, key) == Success(value)
  {
    var i := IndexOfUser(users, username).value;
    var after := WithIntProperty(users, username, key, value);
    IndexOfUserUnchangedByUpdate(users, username, i, after[i]);
  }

  lemma {:induction false} SetIntTwiceKeepsLast(users: seq<User>, username: NullableString, key: string, first: int, last: int)
    ensures WithIntProperty(WithIntProperty(users, username, key, first), username, key, last)
            == WithIntProperty(users, username, key, last)
  {
    if NameTaken(users, username) {
      var i := IndexOfUser(users, username).value;
      var u := users[i];
      var once := WithIntProperty(users, username, key, first);
      IndexOfUserUnchangedByUpdate(users, username, i, once[i]);
      assert users[i := once[i]] == once;
      OverwriteIntProperty(users, i, key, first, last);
    }
  }

  /** Overwriting one user's int property in place: the second write wins. */
  lemma OverwriteIntProperty(users: seq<User>, i: nat, key: string, first: int, last: int)
    requires i < |users|
    ensures var u := users[i];
            var once := users[i := u.(intProperties := u.intProperties[key := first])];
            once[i := once[i].(intProperties := once[i].intProperties[key := last])]
              == users[i := u.(intProperties := u.intProperties[key := last])]
  {
    var u := users[i];
    assert u.intProperties[key := first][key := last] == u.intProperties[key := last];
  }

  /** Setting a string property and reading it back gives the value set. */
  lemma {:induction false} SetThenGetString(users: seq<User>, username: NullableString, key: string, value: NullableString)
    requires NameTaken(users, username)
    ensures GetStringOutcome(WithStringProperty(users, username, key, value), username, key) == Success(value)
  {
    var i := IndexOfUser(users, username).value;
    var after := WithStringProperty(users, username, key, value);
    IndexOfUserUnchangedByUpdate(users, username, i, after[i]);
  }

  /** The int and string dictionaries are independent: setting an int property leaves
      every string property read as it was, and the other way round. */
  lemma {:induction false} IntAndStringPropertiesIndependent(users: seq<User>, username: NullableString, who: NullableString,
                                                            key: string, other: string, n: int, s: NullableString)
    ensures GetStringOutcome(WithIntProperty(users, username, key, n), who, other) == GetStringOutcome(users, who, other)
    ensures GetIntOutcome(WithStringProperty(users, username, key, s), who, other) == GetIntOutcome(users, who, other)
  {
    IntWriteKeepsStringReads(users, username, who, key, other, n);
    StringWriteKeepsIntReads(users, username, who, key, other, s);
  }

  lemma {:induction false} IntWriteKeepsStringReads(users: seq<User>, username: NullableString, who: NullableString,
                                                   key: string, other: string, n: int)
    ensures GetStringOutcome(WithIntProperty(users, username, key, n), who, other) == GetStringOutcome(users, who, other)
  {
    if NameTaken(users, username) {
      var i := IndexOfUser(users, username).value;
      var after := WithIntProperty(users, username, key, n);
      assert after == users[i := after[i]];
      IndexOfUserUnchangedByUpdate(users, who, i, after[i]);
      assert forall j :: 0 <= j < |users| ==> after[j].stringProperties == users[j].stringProperties;
    }
  }

  lemma {:induction false} StringWriteKeepsIntReads(users: seq<User>, username: NullableString, who: NullableString,
                                                   key: string, other: string, s: NullableString)
    ensures GetIntOutcome(WithStringProperty(users, username, key, s), who, other) == GetIntOutcome(users, who, other)
  {
    if NameTaken(users, username) {
      var i := IndexOfUser(users, username).value;
      var after := WithStringProperty(users, username, key, s);
      assert after == users[i := after[i]];
      IndexOfUserUnchangedByUpdate(users, who, i, after[i]);
      assert forall j :: 0 <= j < |users| ==> after[j].intProperties == users[j].intProperties;
    }
  }

  /** SetIntProperty changes only the read it targets: every other (user, key) pair reads
      as before. So a read after several writes gives the last value written to that key. */
  lemma {:induction false} SetIntKeepsOtherIntReads(users: seq<User>, username: NullableString, key: string, n: int,
                                                   who: NullableString, other: string)
    requires who != username || other != key
    ensures GetIntOutcome(WithIntProperty(users, username, key, n), who, other) == GetIntOutcome(users, who, other)
  {
    if NameTaken(users, username) {
      var i := IndexOfUser(users, username).value;
      var after := WithIntProperty(users, username, key, n);
      assert after == users[i := after[i]];
      IndexOfUserUnchangedByUpdate(users, who, i, after[i]);
      match IndexOfUser(users, who)
      case None =>
      case Some(j) =>
        if j == i {
          assert who == username;
          assert after[i].intProperties == users[i].intProperties[key := n];
        } else {
          assert after[j] == users[j];
        }
    }
  }

  /** SetStringProperty changes only the read it targets. */
  lemma {:induction false} SetStringKeepsOtherStringReads(users: seq<User>, username: NullableString, key: string, v: NullableString,
                                                         who: NullableString, other: string)
    requires who != username || other != key
    ensures GetStringOutcome(WithStringProperty(users, username, key, v), who, other) == GetStringOutcome(users, who, other)
  {
    if NameTaken(users, username) {
      var i := IndexOfUser(users, username).value;
      var after := WithStringProperty(users, username, key, v);
      assert after == users[i := after[i]];
      IndexOfUserUnchangedByUpdate(users, who, i, after[i]);
      match IndexOfUser(users, who)
      case None =>
      case Some(j) =>
        if j == i {
          assert who == username;
          assert after[i].stringProperties == users[i].stringProperties[key := v];
        } else {
          assert after[j] == users[j];
        }
    }
  }

  /** Two writes to different keys of the same user: the first key still reads the first
      value. */
  lemma {:induction false} SetIntOtherKeyKeepsFirst(users: seq<User>, username: NullableString, key: string, first: int,
                                                   otherKey: string, second: int)
    requires NameTaken(users, username) && otherKey != key
    ensures GetIntOutcome(WithIntProperty(WithIntProperty(users, username, key, first), username, otherKey, second),
                          username, key) == Success(first)
  {
    SetThenGetInt(users, username, key, first);
    SetIntKeepsOtherIntReads(WithIntProperty(users, username, key, first), username, otherKey, second, username, key);
  }

  /** Replacing a user by one with the same name does not move any name lookup. */
  lemma {:induction false} IndexOfUserUnchangedByUpdate(users: seq<User>, username: NullableString, i: nat, u: User)
    requires i < |users| && u.name == users[i].name
    ensures IndexOfUser(users[i := u], username) == IndexOfUser(users, username)
  {
    if |users| > 0 && i > 0 {
      assert users[i := u][1..] == users[1..][i - 1 := u];
      IndexOfUserUnchangedByUpdate(users[1..], username, i - 1, u);
    } else if |users| > 0 {
      assert users[i := u][1..] == users[1..];
    }
  }

  /** The account store. */
  class NoDBProvider {
    var users: seq<User>
    const kdf: Pbkdf2
    const codec: Base64Codec

    ghost predicate Valid()
      reads this
    {
      DecodesWhatItEncodes(codec) && UniqueAccounts(users) && StoredPasswordsDecode(users, codec)
    }

    constructor (kdf: Pbkdf2, codec: Base64Codec)
      requires DecodesWhatItEncodes(codec)
      ensures Valid() && users == [] && this.kdf == kdf && this.codec == codec
    {
      this.kdf := kdf;
      this.codec := codec;
      users := [];
    }

    /** Register: the first failing check reports its error and changes nothing; otherwise
        exactly one user is appended, with the salted hash as password and empty
        property dictionaries. `salt` is what the random number generator yields. */
    method Register(email: NullableString, username: NullableString, password: NullableString, salt: Salt)
      returns (r: Result<string, RegistrationError>)
      requires Valid()
      modifies this
      ensures Valid()
      ensures r == RegisterOutcome(old(users), email, username, password)
      ensures r.Success? ==> users == old(users) + [User(username.value, email.value,
                                                          codec.encode(CombinedSaltAndHash(password.value, salt, kdf)), map[], map[])]
      ensures r.Failure? ==> users == old(users)
    {
      if IsNullOrWhitespace(email) {
        return Failure(RegistrationError.MissingEmailAddress);
      }
      if IsNullOrWhitespace(username) {
        return Failure(RegistrationError.MissingUsername);
      }
      if IsNullOrWhitespace(password) {
        return Failure(RegistrationError.MissingPassword);
      }
      if EmailTaken(users, email) {
        return Failure(AlreadyExistingEmailAddress);
      }
      if IndexOfUser(users, username).Some? {
        return Failure(AlreadyExistingUsername);
      }
      assert RegisterOutcome(users, email, username, password) == Success(username.value);
      var passwordToStore := GenerateCombinedSaltAndHash(password.value, salt, kdf, codec);
      var user := User(username.value, email.value, passwordToStore, map[], map[]);
      StoredPasswordMatches(password.value, salt, kdf, codec);
      RegisterKeepsAccountsUnique(users, email, username, password, passwordToStore);
      AppendKeepsPasswordsDecoding(users, codec, user);
      users := users + [user];
      return Success(username.value);
    }

    /** Login: reads the store, changes nothing. */
    method Login(username: NullableString, password: NullableString) returns (r: Result<string, LoginError>)
      requires Valid()
      ensures r == LoginOutcome(users, username, password, kdf, codec)
    {
      if IsNullOrWhitespace(username) {
        return Failure(LoginError.MissingUsername);
      }
      if IsNullOrWhitespace(password) {
        return Failure(LoginError.MissingPassword);
      }
      var found := IndexOfUser(users, username);
      if found.None? {
        return Failure(NonexistingUser);
      }
      var storedPassword := users[found.value].password;
      var equal := CheckPasswordsAreEqual(password.value, storedPassword, kdf, codec);
      if !equal {
        return Failure(InvalidCredentials);
      }
      return Success(username.value);
    }

    method GetIntProperty(username: NullableString, key: string) returns (r: Result<int, string>)
      ensures r == GetIntOutcome(users, username, key)
    {
      var found := IndexOfUser(users, username);
      if found.None? {
        return Failure(UserDoesNotExist);
      }
      var user := users[found.value];
      if key !in user.intProperties {
        return Failure(PropertyDoesNotExist);
      }
      return Success(user.intProperties[key]);
    }

    /** SetIntProperty: an unknown user fails and changes nothing; otherwise the key is
        added or overwritten and the value is echoed. */
    method SetIntProperty(username: NullableString, key: string, value: int) returns (r: Result<int, string>)
      requires Valid()
      modifies this
      ensures Valid()
      ensures r == (if NameTaken(old(users), username) then Success(value) else Failure(UserDoesNotExist))
      ensures users == WithIntProperty(old(users), username, key, value)
    {
      var found := IndexOfUser(users, username);
      if found.None? {
        return Failure(UserDoesNotExist);
      }
      var i := found.value;
      var user := users[i];
      if key !in user.intProperties {
        user := user.(intProperties := user.intProperties[key := value]);
      } else {
        user := user.(intProperties := user.intProperties[key := value]);
      }
      users := users[i := user];
      return Success(value);
    }

    method GetStringProperty(username: NullableString, key: string) returns (r: Result<NullableString, string>)
      ensures r == GetStringOutcome(users, username, key)
    {
      var found := IndexOfUser(users, username);
      if found.None? {
        return Failure(UserDoesNotExist);
      }
      var user := users[found.value];
      if key !in user.stringProperties {
        return Failure(PropertyDoesNotExist);
      }
      return Success(user.stringProperties[key]);
    }

    /** SetStringProperty: as SetIntProperty, on the string dictionary. */
    method SetStringProperty(username: NullableString, key: string, value: NullableString) returns (r: Result<NullableString, string>)
      requires Valid()
      modifies this
      ensures Valid()
      ensures r == (if NameTaken(old(users), username) then Success(value) else Failure(UserDoesNotExist))
      ensures users == WithStringProperty(old(users), username, key, value)
    {
      var found := IndexOfUser(users, username);
      if found.None? {
        return Failure(UserDoesNotExist);
      }
      var i := found.value;
      var user := users[i];
      if key !in user.stringProperties {
        user := user.(stringProperties := user.stringProperties[key := value]);
      } else {
        user := user.(stringProperties := user.stringProperties[key := value]);
      }
      users := users[i := user];
      return Success(value);
    }
  }
}
