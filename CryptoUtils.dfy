/** CryptoUtils.cs: the stored password is Base64(salt ‖ hash), where the salt is
    SaltLength random bytes and the hash is the first HashLength bytes of PBKDF2
    (section 5.2 of RFC 2898) over the password and the salt with Iterations rounds.

    PBKDF2, the Base64 codec (section 4 of RFC 4648) and the random salt come from
    outside the model: the key-derivation function and the codec are parameters, and
    the codec is required to decode what it encodes. */
module CryptoUtils {
  import opened Common

  newtype byte = x: int | 0 <= x < 256

  const SaltLength: nat := 16
  const HashLength: nat := 20
  const Iterations: nat := 10000

  /** A salt as drawn from the cryptographic random number generator. */
  type Salt = s: seq<byte> | |s| == SaltLength witness seq(SaltLength, _ => 0 as byte)

  /** `Rfc2898DeriveBytes(password, salt, iterations).GetBytes(HashLength)`: deterministic,
      always HashLength bytes. */
  type Hash = s: seq<byte> | |s| == HashLength witness seq(HashLength, _ => 0 as byte)
  type Pbkdf2 = (string, seq<byte>, nat) -> Hash

  /** Convert.ToBase64String / Convert.FromBase64String; decoding a string that is not
      Base64 throws in the source and is `None` here. */
  datatype Base64Codec = Base64Codec(encode: seq<byte> -> string, decode: string -> Option<seq<byte>>)

  ghost predicate DecodesWhatItEncodes(codec: Base64Codec) {
    forall bytes: seq<byte> {:trigger codec.encode(bytes)} :: codec.decode(codec.encode(bytes)) == Some(bytes)
  }

  /** The combined blob that GenerateCombinedSaltAndHash encodes. */
  function CombinedSaltAndHash(password: string, salt: Salt, kdf: Pbkdf2): (blob: seq<byte>)
    ensures |blob| == SaltLength + HashLength
    ensures blob[..SaltLength] == salt
    ensures blob[SaltLength..] == kdf(password, salt, Iterations)
  {
    salt + kdf(password, salt, Iterations)
  }

  /** What CheckPasswordsAreEqual decides about a decoded blob: the hash derived from the
      password and the blob's first SaltLength bytes equals the blob's next HashLength bytes. */
  predicate HashMatches(password: string, blob: seq<byte>, kdf: Pbkdf2)
    requires |blob| >= SaltLength + HashLength
  {
    kdf(password, blob[..SaltLength], Iterations) == blob[SaltLength..SaltLength + HashLength]
  }

  /** Array.Copy(source, 0, destination, start, |source|). */
  method CopyInto(source: seq<byte>, destination: array<byte>, start: nat)
    requires start + |source| <= destination.Length
    modifies destination
    ensures destination[..] == old(destination[..start]) + source + old(destination[start + |source|..])
  {
    var i := 0;
    while i < |source|
      invariant 0 <= i <= |source|
      invariant destination[..start] == old(destination[..start])
      invariant destination[start..start + i] == source[..i]
      invariant destination[start + |source|..] == old(destination[start + |source|..])
    {
      destination[start + i] := source[i];
      i := i + 1;
    }
    assert destination[..] == destination[..start] + destination[start..start + |source|] + destination[start + |source|..];
  }

  /** GenerateCombinedSaltAndHash: fills a SaltLength + HashLength byte array with the salt
      and then the derived hash, and encodes it. */
  method GenerateCombinedSaltAndHash(password: string, salt: Salt, kdf: Pbkdf2, codec: Base64Codec)
    returns (stored: string)
    ensures stored == codec.encode(CombinedSaltAndHash(password, salt, kdf))
  {
    var hash := kdf(password, salt, Iterations);
    var combined := new byte[SaltLength + HashLength];
    CopyInto(salt, combined, 0);
    assert combined[..SaltLength] == salt;
    CopyInto(hash, combined, SaltLength);
    assert combined[..] == salt + hash;
    stored := codec.encode(combined[..]);
  }

  /** CheckPasswordsAreEqual: decodes the stored blob, derives a hash from the password and
      the blob's salt, and compares byte by byte, returning false at the first difference.
      The source indexes the decoded array without a length check, so a stored string that
      is not Base64 of at least SaltLength + HashLength bytes is excluded. */
  method CheckPasswordsAreEqual(passwordToCheck: string, storedPassword: string, kdf: Pbkdf2, codec: Base64Codec)
    returns (equal: bool)
    requires codec.decode(storedPassword).Some?
    requires |codec.decode(storedPassword).value| >= SaltLength + HashLength
    ensures equal <==> HashMatches(passwordToCheck, codec.decode(storedPassword).value, kdf)
  {
    var storedPasswordHash := codec.decode(storedPassword).value;
    var salt := new byte[SaltLength];
    CopyInto(storedPasswordHash[..SaltLength], salt, 0);
    assert salt[..] == storedPasswordHash[..SaltLength];
    var hash := kdf(passwordToCheck, salt[..], Iterations);
    var i := 0;
    while i < HashLength
      invariant 0 <= i <= HashLength
      invariant forall j :: 0 <= j < i ==> storedPasswordHash[j + SaltLength] == hash[j]
    {
      if storedPasswordHash[i + SaltLength] != hash[i] {
        assert storedPasswordHash[SaltLength..SaltLength + HashLength][i] != hash[i];
        return false;
      }
      i := i + 1;
    }
    assert hash == storedPasswordHash[SaltLength..SaltLength + HashLength];
    return true;
  }

  /** Round trip: a password matches the blob that storing it produces, and the stored
      string decodes back to exactly that blob. */
  lemma {:induction false} StoredPasswordMatches(password: string, salt: Salt, kdf: Pbkdf2, codec: Base64Codec)
    requires DecodesWhatItEncodes(codec)
    ensures var stored := codec.encode(CombinedSaltAndHash(password, salt, kdf));
            codec.decode(stored) == Some(CombinedSaltAndHash(password, salt, kdf))
            && HashMatches(password, CombinedSaltAndHash(password, salt, kdf), kdf)
  {
    var blob := CombinedSaltAndHash(password, salt, kdf);
    assert codec.decode(codec.encode(blob)) == Some(blob);
    assert blob[SaltLength..SaltLength + HashLength] == blob[SaltLength..];
  }

  /** Another password matches the stored blob exactly when PBKDF2 derives the same hash
      for it under the same salt. */
  lemma {:induction false} OtherPasswordMatchesOnlyOnCollision(password: string, other: string, salt: Salt, kdf: Pbkdf2)
    ensures HashMatches(other, CombinedSaltAndHash(password, salt, kdf), kdf)
            <==> kdf(other, salt, Iterations) == kdf(password, salt, Iterations)
  {
    var blob := CombinedSaltAndHash(password, salt, kdf);
    assert blob[..SaltLength] == salt;
    assert blob[SaltLength..SaltLength + HashLength] == blob[SaltLength..];
  }

  /** Two stores of one password with different salts give different blobs, and so
      (the codec being injective on what it encodes) different stored strings. */
  lemma {:induction false} DifferentSaltsGiveDifferentStoredPasswords(password: string, salt1: Salt, salt2: Salt, kdf: Pbkdf2, codec: Base64Codec)
    requires DecodesWhatItEncodes(codec)
    requires salt1 != salt2
    ensures codec.encode(CombinedSaltAndHash(password, salt1, kdf)) != codec.encode(CombinedSaltAndHash(password, salt2, kdf))
  {
    var b1 := CombinedSaltAndHash(password, salt1, kdf);
    var b2 := CombinedSaltAndHash(password, salt2, kdf);
    assert b1[..SaltLength] != b2[..SaltLength];
    assert codec.decode(codec.encode(b1)) == Some(b1);
    assert codec.decode(codec.encode(b2)) == Some(b2);
  }
}
