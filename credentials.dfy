/**
 * What every variant of the authentication code shares: the stored
 * credential record, the password hash and the JSON encoding of the record.
 * PBKDF2-HMAC-SHA256 (section 5.2 of RFC 8018) followed by standard base64
 * (section 4 of RFC 4648) is a foreign computation, so it enters the model as
 * a function parameter; being a Dafny function it is deterministic, which is
 * all that registration and login rely on. The JSON encoding is likewise a
 * parameter, constrained only by decoding what it encodes.
 */
module Credentials {
  import opened Wrappers

  /** The `credential` struct: the base64 derived key and the salt it was derived with. */
  datatype Credential = Credential(key: string, salt: string)

  const Iterations: nat := 4096
  const KeyLength: nat := 64

  /** `pbkdf2.Key(pw, salt, iterations, keyLength, sha256.New)`, base64-encoded. */
  type Pbkdf2 = (string, string, nat, nat) -> string

  /** `hash(pw, salt)`, the same in every variant: 4096 iterations, a 64-byte key. */
  function Hash(pbkdf2: Pbkdf2, pw: string, salt: string): string {
    pbkdf2(pw, salt, Iterations, KeyLength)
  }

  /** `json.Marshal` and `json.Unmarshal` of a credential; a failed unmarshal carries Go's error text. */
  datatype Codec = Codec(marshal: Credential -> string, unmarshal: string -> Result<Credential, string>)

  /** Unmarshalling what was marshalled gives the credential back. */
  ghost predicate RoundTrips(codec: Codec) {
    forall c :: codec.unmarshal(codec.marshal(c)) == Success(c)
  }

  /** The record `Register` stores for a password and a fresh salt. */
  function Enroll(pbkdf2: Pbkdf2, pw: string, salt: string): (c: Credential)
    ensures c.salt == salt && c.key == Hash(pbkdf2, pw, salt)
  {
    Credential(Hash(pbkdf2, pw, salt), salt)
  }

  /** The login check: the hash of the offered password under the stored salt equals the stored key. */
  predicate Matches(pbkdf2: Pbkdf2, c: Credential, pw: string) {
    Hash(pbkdf2, pw, c.salt) == c.key
  }

  /** A password matches the record enrolled for it; one whose hash differs does not. */
  lemma EnrollThenMatch(pbkdf2: Pbkdf2, pw: string, other: string, salt: string)
    ensures Matches(pbkdf2, Enroll(pbkdf2, pw, salt), pw)
    ensures Matches(pbkdf2, Enroll(pbkdf2, pw, salt), other) <==> Hash(pbkdf2, other, salt) == Hash(pbkdf2, pw, salt)
  {
  }

  /** What the login check concludes about a user name and an offered password. */
  datatype Verdict = Unregistered | Undecodable(detail: string) | WrongPassword | Accepted

  /**
   * The check every `Login`/`Authenticate` makes before it issues a session:
   * look the user up in the users bucket, decode the stored record, and
   * compare the hash of the offered password under the stored salt with the
   * stored key.
   */
  function Verify(users: map<string, string>, codec: Codec, pbkdf2: Pbkdf2, user: string, pw: string): Verdict {
    if user !in users then Unregistered
    else
      match codec.unmarshal(users[user])
      case Failure(e) => Undecodable(e)
      case Success(creds) => if Matches(pbkdf2, creds, pw) then Accepted else WrongPassword
  }

  /** The check accepts exactly when the user is present, the record decodes and the hashes agree. */
  lemma VerifyCases(users: map<string, string>, codec: Codec, pbkdf2: Pbkdf2, user: string, pw: string)
    ensures Verify(users, codec, pbkdf2, user, pw) == Unregistered <==> user !in users
    ensures Verify(users, codec, pbkdf2, user, pw) == Accepted <==>
      user in users && codec.unmarshal(users[user]).Success? && Matches(pbkdf2, codec.unmarshal(users[user]).value, pw)
    ensures Verify(users, codec, pbkdf2, user, pw) == WrongPassword <==>
      user in users && codec.unmarshal(users[user]).Success? && !Matches(pbkdf2, codec.unmarshal(users[user]).value, pw)
  {
  }

  /**
   * After a registration stores the encoded record, the same password is
   * accepted, and a password whose hash under the new salt differs is
   * refused as wrong, whatever was registered under that name before.
   */
  lemma EnrollThenVerify(users: map<string, string>, codec: Codec, pbkdf2: Pbkdf2, user: string, pw: string, other: string, salt: string)
    requires RoundTrips(codec)
    ensures var users' := users[user := codec.marshal(Enroll(pbkdf2, pw, salt))];
      && Verify(users', codec, pbkdf2, user, pw) == Accepted
      && (Hash(pbkdf2, other, salt) != Hash(pbkdf2, pw, salt) ==> Verify(users', codec, pbkdf2, user, other) == WrongPassword)
  {
    var c := Enroll(pbkdf2, pw, salt);
    assert codec.unmarshal(codec.marshal(c)) == Success(c);
    EnrollThenMatch(pbkdf2, pw, other, salt);
  }
}
