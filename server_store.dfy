/**
 * `AuthStore` of go/store.go: the store behind the live server. A bolt file
 * with two buckets, `auth` (user name to JSON credential) and `sessions`
 * (token to decimal Unix time), each update its own transaction. The source
 * keeps the store in a package-level variable that `NewAuthDB` sets; here the
 * store is an object handed to the operations that use it.
 */
module ServerStore {
  import opened Wrappers
  import opened Strconv
  import Bolt

  /** `SessionCreation`'s `(int64, error)` pair; `err` stands for a non-nil error. */
  datatype Creation = Creation(created: Int64, err: bool)

  /**
   * The creation time recorded for a token: the stored string parsed as a
   * decimal int64. A missing token reads as a nil slice, i.e. the empty
   * string, which does not parse: it is an error, not a zero time.
   */
  function CreationOf(sessions: map<string, string>, token: string): (r: Creation)
    ensures !r.err <==> token in sessions && ParseInt(sessions[token]).Some?
    ensures !r.err ==> ParseInt(sessions[token]) == Some(r.created)
    ensures r.err ==> r.created == 0
    ensures token !in sessions ==> r == Creation(0, true)
  {
    var stored := Bolt.Get(sessions, token);
    match ParseInt(if stored.Some? then stored.value else "")
    case Some(n) => Creation(n, false)
    case None => Creation(0, true)
  }

  class AuthStore {
    /** The `auth` bucket. */
    var users: map<string, string>
    /** The `sessions` bucket. */
    var sessions: map<string, string>

    /** Bolt never stores an empty key. */
    ghost predicate Valid()
      reads this
    {
      "" !in users && "" !in sessions
    }

    /** `NewAuthDB`: the old file is removed, so both buckets start empty. */
    constructor ()
      ensures Valid()
      ensures users == map[] && sessions == map[]
    {
      users := map[];
      sessions := map[];
    }

    /** `PutUser`: stores the credentials under the user, replacing any earlier entry. */
    method PutUser(user: string, creds: string, fault: bool) returns (err: Option<Bolt.TxError>)
      requires Valid()
      modifies this
      ensures Valid()
      ensures err == Bolt.PutError(user, fault)
      ensures users == if err.None? then old(users)[user := creds] else old(users)
      ensures sessions == old(sessions)
    {
      err := Bolt.PutError(user, fault);
      if err.None? {
        users := users[user := creds];
      }
    }

    /** `UserCredentials`: the stored credentials, or nil (and no error) for an unknown user. */
    method UserCredentials(user: string) returns (creds: Option<string>)
      ensures creds.Some? <==> user in users
      ensures creds.Some? ==> creds.value == users[user]
    {
      creds := Bolt.Get(users, user);
    }

    /** `PutSession`: records the creation time of a token. */
    method PutSession(token: string, created: string, fault: bool) returns (err: Option<Bolt.TxError>)
      requires Valid()
      modifies this
      ensures Valid()
      ensures err == Bolt.PutError(token, fault)
      ensures sessions == if err.None? then old(sessions)[token := created] else old(sessions)
      ensures users == old(users)
    {
      err := Bolt.PutError(token, fault);
      if err.None? {
        sessions := sessions[token := created];
      }
    }

    /** `SessionCreation`: the parsed creation time, or `(0, error)` when it is missing or not a decimal int64. */
    method SessionCreation(token: string) returns (created: Int64, err: bool)
      ensures Creation(created, err) == CreationOf(sessions, token)
    {
      var stored := Bolt.Get(sessions, token);
      var parsed := ParseInt(if stored.Some? then stored.value else "");
      if parsed.None? {
        return 0, true;
      }
      created, err := parsed.value, false;
    }

    /** `DeleteSession`: removes the token; deleting a missing token succeeds. */
    method DeleteSession(token: string, fault: bool) returns (err: Option<Bolt.TxError>)
      requires Valid()
      modifies this
      ensures Valid()
      ensures err == Bolt.DeleteError(fault)
      ensures sessions == if err.None? then old(sessions) - {token} else old(sessions)
      ensures users == old(users)
    {
      err := Bolt.DeleteError(fault);
      if err.None? {
        sessions := sessions - {token};
      }
    }
  }

  /** A session written with `FormatInt(now)` reads back as `(now, nil)`. */
  lemma PutThenCreation(sessions: map<string, string>, token: string, now: Int64)
    ensures CreationOf(sessions[token := FormatInt(now)], token) == Creation(now, false)
  {
    ParseFormatInt(now);
  }
}
