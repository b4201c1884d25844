/**
 * `Storage` of kv/kv.go: the earliest store, keyed and valued by raw bytes,
 * with the same `auth` and `sessions` buckets and no delete.
 */
module Kv {
  import opened Wrappers
  import Bolt

  newtype Byte = b: int | 0 <= b < 256

  type Bytes = seq<Byte>

  class Storage {
    /** The `auth` bucket. */
    var users: map<Bytes, Bytes>
    /** The `sessions` bucket. */
    var sessions: map<Bytes, Bytes>

    /** Bolt never stores an empty key. */
    ghost predicate Valid()
      reads this
    {
      [] !in users && [] !in sessions
    }

    /** `NewDB`: a freshly created file with both buckets and nothing in them. */
    constructor ()
      ensures Valid()
      ensures users == map[] && sessions == map[]
    {
      users := map[];
      sessions := map[];
    }

    /** `PutUser`: stores the credentials under the user, replacing any earlier value. */
    method PutUser(user: Bytes, creds: Bytes, fault: bool) returns (err: Option<Bolt.TxError>)
      requires Valid()
      modifies this
      ensures Valid()
      ensures err == Bolt.PutError(user, fault)
      ensures users == if err.None? then old(users)[user := creds] else old(users)
      ensures sessions == old(sessions)
    {
      err := Bolt.PutError(user, fault);
      if err.None? {
        users := users[user := creds];
      }
    }

    /** `GetUser`: the stored credentials, or nil for an unknown user. */
    method GetUser(user: Bytes) returns (creds: Option<Bytes>)
      ensures creds.Some? <==> user in users
      ensures creds.Some? ==> creds.value == users[user]
    {
      creds := Bolt.Get(users, user);
    }

    /** `GetSession`: the stored creation bytes, or nil for an unknown token. */
    method GetSession(token: Bytes) returns (created: Option<Bytes>)
      ensures created.Some? <==> token in sessions
      ensures created.Some? ==> created.value == sessions[token]
    {
      created := Bolt.Get(sessions, token);
    }

    /** `PutSession`: records a token's creation bytes. */
    method PutSession(token: Bytes, created: Bytes, fault: bool) returns (err: Option<Bolt.TxError>)
      requires Valid()
      modifies this
      ensures Valid()
      ensures err == Bolt.PutError(token, fault)
      ensures sessions == if err.None? then old(sessions)[token := created] else old(sessions)
      ensures users == old(users)
    {
      err := Bolt.PutError(token, fault);
      if err.None? {
        sessions := sessions[token := created];
      }
    }
  }

  /**
   * A client of the store: a user written and then read back, a session
   * written and then read back. Each write leaves the other bucket as it was,
   * reads see exactly what the successful writes stored, and a refused
   * write (an empty key, or a failed transaction) leaves the old value.
   */
  method PutThenGet(db: Storage, user: Bytes, creds: Bytes, token: Bytes, created: Bytes, fault1: bool, fault2: bool)
    returns (gotUser: Option<Bytes>, gotSession: Option<Bytes>)
    requires db.Valid()
    modifies db
    ensures db.Valid()
    ensures user != [] && !fault1 ==> gotUser == Some(creds)
    ensures token != [] && !fault2 ==> gotSession == Some(created)
    ensures Bolt.PutError(user, fault1).Some? ==> gotUser == Bolt.Get(old(db.users), user)
    ensures Bolt.PutError(token, fault2).Some? ==> gotSession == Bolt.Get(old(db.sessions), token)
  {
    var e1 := db.PutUser(user, creds, fault1);
    var e2 := db.PutSession(token, created, fault2);
    gotUser := db.GetUser(user);
    gotSession := db.GetSession(token);
  }
}
