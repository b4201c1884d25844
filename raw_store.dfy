/**
 * `AuthStore` of auth/store/store.go, the store package the `auth` package
 * uses: the same two buckets as the server's store, but `SessionCreation`
 * hands back the raw stored bytes without parsing them, and there is no way
 * to delete a session.
 */
module RawStore {
  import opened Wrappers
  import Bolt

  class AuthStore {
    /** The `auth` bucket. */
    var users: map<string, string>
    /** The `sessions` bucket. */
    var sessions: map<string, string>

    /** Bolt never stores an empty key. */
    ghost predicate Valid()
      reads this
    {
      "" !in users && "" !in sessions
    }

    /** `NewAuthDB`: a handle on a freshly created file, so both buckets are empty. */
    constructor ()
      ensures Valid()
      ensures users == map[] && sessions == map[]
    {
      users := map[];
      sessions := map[];
    }

    /** `PutUser`: stores the credentials under the user, replacing any earlier entry. */
    method PutUser(user: string, creds: string, fault: bool) returns (err: Option<Bolt.TxError>)
      requires Valid()
      modifies this
      ensures Valid()
      ensures err == Bolt.PutError(user, fault)
      ensures users == if err.None? then old(users)[user := creds] else old(users)
      ensures sessions == old(sessions)
    {
      err := Bolt.PutError(user, fault);
      if err.None? {
        users := users[user := creds];
      }
    }

    /** `UserCredentials`: the stored bytes, or nil for an unknown user. */
    method UserCredentials(user: string) returns (creds: Option<string>)
      ensures creds.Some? <==> user in users
      ensures creds.Some? ==> creds.value == users[user]
    {
      creds := Bolt.Get(users, user);
    }

    /** `PutSession`: records a token; with no delete anywhere, the set of tokens only grows. */
    method PutSession(token: string, created: string, fault: bool) returns (err: Option<Bolt.TxError>)
      requires Valid()
      modifies this
      ensures Valid()
      ensures err == Bolt.PutError(token, fault)
      ensures sessions == if err.None? then old(sessions)[token := created] else old(sessions)
      ensures old(sessions).Keys <= sessions.Keys
      ensures users == old(users)
    {
      err := Bolt.PutError(token, fault);
      if err.None? {
        sessions := sessions[token := created];
      }
    }

    /** `SessionCreation`: the raw stored bytes, or nil when the token is unknown; nothing is parsed. */
    method SessionCreation(token: string) returns (created: Option<string>)
      ensures created.Some? <==> token in sessions
      ensures created.Some? ==> created.value == sessions[token]
    {
      created := Bolt.Get(sessions, token);
    }
  }
}
