/**
 * `AuthStore` of auth/store.go: the store of the `auth` package's own draft,
 * with a `SessionCreation` that parses the stored value and a
 * `DeleteSession`; `NewAuthDB` returns the handle instead of setting a
 * package variable. Nothing in the modelled code calls it.
 */
module ParsingStore {
  import opened Wrappers
  import opened Strconv
  import Bolt

  class AuthStore {
    /** The `auth` bucket. */
    var users: map<string, string>
    /** The `sessions` bucket. */
    var sessions: map<string, string>

    /** Bolt never stores an empty key. */
    ghost predicate Valid()
      reads this
    {
      "" !in users && "" !in sessions
    }

    /** `NewAuthDB`: a handle on a freshly created file, so both buckets are empty. */
    constructor ()
      ensures Valid()
      ensures users == map[] && sessions == map[]
    {
      users := map[];
      sessions := map[];
    }

    /** `PutUser`: stores the credentials under the user, replacing any earlier entry. */
    method PutUser(user: string, creds: string, fault: bool) returns (err: Option<Bolt.TxError>)
      requires Valid()
      modifies this
      ensures Valid()
      ensures err == Bolt.PutError(user, fault)
      ensures users == if err.None? then old(users)[user := creds] else old(users)
      ensures sessions == old(sessions)
    {
      err := Bolt.PutError(user, fault);
      if err.None? {
        users := users[user := creds];
      }
    }

    /** `UserCredentials`: the stored credentials, or nil for an unknown user. */
    method UserCredentials(user: string) returns (creds: Option<string>)
      ensures creds.Some? <==> user in users
      ensures creds.Some? ==> creds.value == users[user]
    {
      creds := Bolt.Get(users, user);
    }

    /** `PutSession`: records the creation time of a token. */
    method PutSession(token: string, created: string, fault: bool) returns (err: Option<Bolt.TxError>)
      requires Valid()
      modifies this
      ensures Valid()
      ensures err == Bolt.PutError(token, fault)
      ensures sessions == if err.None? then old(sessions)[token := created] else old(sessions)
      ensures users == old(users)
    {
      err := Bolt.PutError(token, fault);
      if err.None? {
        sessions := sessions[token := created];
      }
    }

    /**
     * `SessionCreation`: `(n, nil)` when the stored value is the decimal
     * int64 `n`; `(0, error)` otherwise, a missing token included, since a
     * nil slice reads as the empty string.
     */
    method SessionCreation(token: string) returns (created: Int64, err: bool)
      ensures !err <==> token in sessions && ParseInt(sessions[token]).Some?
      ensures !err ==> ParseInt(sessions[token]) == Some(created)
      ensures err ==> created == 0
    {
      var c := Bolt.Get(sessions, token);
      var parsed := ParseInt(if c.Some? then c.value else "");
      if parsed.None? {
        return 0, true;
      }
      created, err := parsed.value, false;
    }

    /** `DeleteSession`: removes the token and nothing else; deleting a missing token succeeds. */
    method DeleteSession(token: string, fault: bool) returns (err: Option<Bolt.TxError>)
      requires Valid()
      modifies this
      ensures Valid()
      ensures err == Bolt.DeleteError(fault)
      ensures sessions == if err.None? then old(sessions) - {token} else old(sessions)
      ensures users == old(users)
    {
      err := Bolt.DeleteError(fault);
      if err.None? {
        sessions := sessions - {token};
      }
    }
  }
}
