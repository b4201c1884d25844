/**
 * `Register`, `Authenticate` and `newSession` of auth/auth.go, over the raw
 * store of auth/store/store.go. Failures in `Register` end the process
 * (`log.Fatalf`); `Authenticate` returns Go errors.
 */
module PackageAuth {
  import opened Wrappers
  import opened Strconv
  import opened Credentials
  import Bolt
  import RawStore

  const MaxRetries: nat := 6

  /** What one pass of `newSession`'s loop gets from outside: a UUID or its generator's error, the clock, and the fate of the put. */
  datatype Attempt = Attempt(uuid: Result<string, string>, now: Int64, putFault: bool)

  type Draws = nat -> Attempt

  /** `newSession`'s result `(token, err)` with the sessions bucket it leaves behind. */
  datatype Issued = Issued(token: string, err: Option<string>, sessions: map<string, string>)

  /** The loop treats a token as in use when its stored bytes are not empty. */
  predicate Occupied(sessions: map<string, string>, token: string) {
    token in sessions && |sessions[token]| != 0
  }

  /**
   * `newSession` from pass `i` on: a failed UUID ends the call with an error;
   * an occupied candidate is skipped; otherwise the current time is written
   * under it and, if the write succeeds, it is the token. After `MaxRetries`
   * passes the result is an empty token and no error.
   */
  function IssueFrom(sessions: map<string, string>, draws: Draws, i: nat): Issued
    requires i <= MaxRetries
    decreases MaxRetries - i
  {
    if i == MaxRetries then Issued("", None, sessions)
    else
      var a := draws(i);
      match a.uuid
      case Failure(e) => Issued("", Some("failed to generate uuid: " + e), sessions)
      case Success(uuid) =>
        if Occupied(sessions, uuid) then IssueFrom(sessions, draws, i + 1)
        else if Bolt.PutError(uuid, a.putFault).Some? then IssueFrom(sessions, draws, i + 1)
        else Issued(uuid, None, sessions[uuid := FormatInt(a.now)])
  }

  function Issue(sessions: map<string, string>, draws: Draws): Issued {
    IssueFrom(sessions, draws, 0)
  }

  /** `newSession`: at most `MaxRetries` passes, skipping candidates whose stored bytes are not empty. */
  method NewSession(db: RawStore.AuthStore, draws: Draws) returns (token: string, err: Option<string>)
    requires db.Valid()
    modifies db
    ensures db.Valid()
    ensures Issued(token, err, db.sessions) == Issue(old(db.sessions), draws)
    ensures db.users == old(db.users)
  {
    token, err := "", None;
    for i := 0 to MaxRetries
      invariant db.Valid() && db.users == old(db.users)
      invariant IssueFrom(db.sessions, draws, i) == Issue(old(db.sessions), draws)
    {
      var a := draws(i);
      if a.uuid.Failure? {
        return "", Some("failed to generate uuid: " + a.uuid.error);
      }
      var uuid := a.uuid.value;
      var created := db.SessionCreation(uuid);
      if created.Some? && |created.value| != 0 {
        continue;
      }
      var time := FormatInt(a.now);
      var putErr := db.PutSession(uuid, time, a.putFault);
      if putErr.None? {
        token := uuid;
        break;
      }
    }
  }

  /**
   * What a call from pass `i` on does to the bucket: with an empty token
   * nothing; with a token, it adds or overwrites that one entry, which was
   * not occupied, with the clock reading of the pass that drew it (returned
   * in `j`). An error comes with an empty token.
   */
  lemma {:induction false} IssueFromFacts(sessions: map<string, string>, draws: Draws, i: nat) returns (j: nat)
    requires i <= MaxRetries
    ensures var r := IssueFrom(sessions, draws, i);
      && (r.err.Some? ==> r.token == "")
      && (r.token == "" ==> r.sessions == sessions)
      && (r.token != "" ==>
            && r.err.None? && !Occupied(sessions, r.token)
            && i <= j < MaxRetries && draws(j).uuid == Success(r.token)
            && r.sessions == sessions[r.token := FormatInt(draws(j).now)])
    decreases MaxRetries - i
  {
    j := i;
    if i < MaxRetries && draws(i).uuid.Success? {
      var uuid := draws(i).uuid.value;
      if Occupied(sessions, uuid) || Bolt.PutError(uuid, draws(i).putFault).Some? {
        j := IssueFromFacts(sessions, draws, i + 1);
      }
    }
  }

  /**
   * `newSession`'s promise: a non-empty token is a drawn UUID that was free
   * (absent or stored empty), now mapped to that pass's time; no other
   * entry changes, and an occupied entry is never overwritten.
   */
  lemma IssueOutcome(sessions: map<string, string>, draws: Draws)
    ensures var r := Issue(sessions, draws);
      && (r.err.Some? ==> r.token == "")
      && (r.token == "" ==> r.sessions == sessions)
      && (r.token != "" ==>
            && !Occupied(sessions, r.token)
            && exists j :: 0 <= j < MaxRetries && draws(j).uuid == Success(r.token)
                 && r.sessions == sessions[r.token := FormatInt(draws(j).now)])
      && (forall k :: Occupied(sessions, k) ==> k in r.sessions && r.sessions[k] == sessions[k])
  {
    var j := IssueFromFacts(sessions, draws, 0);
  }

  /** Only the first `MaxRetries` draws matter. */
  lemma {:induction false} IssueFromUsesFirstDraws(sessions: map<string, string>, d1: Draws, d2: Draws, i: nat)
    requires i <= MaxRetries
    requires forall j :: i <= j < MaxRetries ==> d1(j) == d2(j)
    ensures IssueFrom(sessions, d1, i) == IssueFrom(sessions, d2, i)
    decreases MaxRetries - i
  {
    if i < MaxRetries {
      IssueFromUsesFirstDraws(sessions, d1, d2, i + 1);
    }
  }

  lemma IssueUsesFirstDraws(sessions: map<string, string>, d1: Draws, d2: Draws)
    requires forall j :: 0 <= j < MaxRetries ==> d1(j) == d2(j)
    ensures Issue(sessions, d1) == Issue(sessions, d2)
  {
    IssueFromUsesFirstDraws(sessions, d1, d2, 0);
  }

  /** Six occupied candidates exhaust the loop: `("", nil)` and nothing written. */
  lemma {:induction false} AllOccupiedExhaustsFrom(sessions: map<string, string>, draws: Draws, i: nat)
    requires i <= MaxRetries
    requires forall j :: i <= j < MaxRetries ==> draws(j).uuid.Success? && Occupied(sessions, draws(j).uuid.value)
    ensures IssueFrom(sessions, draws, i) == Issued("", None, sessions)
    decreases MaxRetries - i
  {
    if i < MaxRetries {
      AllOccupiedExhaustsFrom(sessions, draws, i + 1);
    }
  }

  lemma AllOccupiedExhausts(sessions: map<string, string>, draws: Draws)
    requires forall j :: 0 <= j < MaxRetries ==> draws(j).uuid.Success? && Occupied(sessions, draws(j).uuid.value)
    ensures Issue(sessions, draws) == Issued("", None, sessions)
  {
    AllOccupiedExhaustsFrom(sessions, draws, 0);
  }

  /** The errors `Authenticate` returns. */
  datatype AuthError =
    | UnregisteredUser(user: string)
    | GetFailed(detail: string)
    | IncorrectPassword
    | TokenFailed(detail: string)

  /** `err.Error()` of each. */
  function ErrorText(e: AuthError): string {
    match e
    case UnregisteredUser(user) => "unregistered user: " + user
    case GetFailed(detail) => "failed to get: " + detail
    case IncorrectPassword => "incorrect password"
    case TokenFailed(detail) => "failed to generate token: " + detail
  }

  /**
   * `Authenticate`: the credential check, then `newSession`. Only a UUID
   * failure becomes an error; when the six passes run out, the empty token
   * is returned with a nil error.
   */
  method Authenticate(db: RawStore.AuthStore, codec: Codec, pbkdf2: Pbkdf2, user: string, pw: string, draws: Draws)
    returns (token: string, err: Option<AuthError>)
    requires db.Valid()
    modifies db
    ensures db.Valid() && db.users == old(db.users)
    ensures match Verify(old(db.users), codec, pbkdf2, user, pw)
      case Unregistered => token == "" && err == Some(UnregisteredUser(user)) && db.sessions == old(db.sessions)
      case Undecodable(e) => token == "" && err == Some(GetFailed(e)) && db.sessions == old(db.sessions)
      case WrongPassword => token == "" && err == Some(IncorrectPassword) && db.sessions == old(db.sessions)
      case Accepted =>
        var o := Issue(old(db.sessions), draws);
        && db.sessions == o.sessions
        && (o.err.Some? ==> token == "" && err == Some(TokenFailed(o.err.value)))
        && (o.err.None? ==> token == o.token && err.None?)
  {
    var stored := db.UserCredentials(user);
    if stored.None? {
      return "", Some(UnregisteredUser(user));
    }
    var creds := codec.unmarshal(stored.value);
    if creds.Failure? {
      return "", Some(GetFailed(creds.error));
    }
    var key := Hash(pbkdf2, pw, creds.value.salt);
    if key != creds.value.key {
      return "", Some(IncorrectPassword);
    }
    var issueErr;
    token, issueErr := NewSession(db, draws);
    if issueErr.Some? {
      return "", Some(TokenFailed(issueErr.value));
    }
    err := None;
  }

  /** Why `Register` ends the process. */
  datatype Fatal = UuidFailed(detail: string) | PutFailed(err: Bolt.TxError)

  /**
   * `Register`: draw a salt, derive the key, store the encoded credential
   * under the user, replacing any earlier one. `Some` is the reason the
   * process exits through `log.Fatalf`.
   */
  method Register(db: RawStore.AuthStore, codec: Codec, pbkdf2: Pbkdf2, user: string, pw: string,
                  salt: Result<string, string>, fault: bool)
    returns (fatal: Option<Fatal>)
    requires db.Valid()
    modifies db
    ensures db.Valid() && db.sessions == old(db.sessions)
    ensures salt.Failure? ==> fatal == Some(UuidFailed(salt.error)) && db.users == old(db.users)
    ensures salt.Success? ==>
      var e := Bolt.PutError(user, fault);
      && fatal == (if e.None? then None else Some(PutFailed(e.value)))
      && db.users == if e.None? then old(db.users)[user := codec.marshal(Enroll(pbkdf2, pw, salt.value))] else old(db.users)
  {
    if salt.Failure? {
      return Some(UuidFailed(salt.error));
    }
    var key := Hash(pbkdf2, pw, salt.value);
    var buf := codec.marshal(Credential(key, salt.value));
    var err := db.PutUser(user, buf, fault);
    if err.Some? {
      return Some(PutFailed(err.value));
    }
    fatal := None;
  }

  /** Appending to a common prefix is injective. */
  lemma PrefixCancels(p: string, a: string, b: string)
    requires p + a == p + b
    ensures a == b
  {
    assert a == (p + a)[|p|..];
    assert b == (p + b)[|p|..];
  }

  /**
   * The error texts tell the errors apart: two errors print the same text
   * exactly when they are the same error, so the text of an unregistered
   * user names that user and nothing else.
   */
  lemma ErrorTextInjective(e1: AuthError, e2: AuthError)
    ensures ErrorText(e1) == ErrorText(e2) <==> e1 == e2
  {
    var t1, t2 := ErrorText(e1), ErrorText(e2);
    if e1 != e2 {
      if e1.UnregisteredUser? && e2.UnregisteredUser? {
        if t1 == t2 { PrefixCancels("unregistered user: ", e1.user, e2.user); }
      } else if e1.GetFailed? && e2.GetFailed? {
        if t1 == t2 { PrefixCancels("failed to get: ", e1.detail, e2.detail); }
      } else if e1.TokenFailed? && e2.TokenFailed? {
        if t1 == t2 { PrefixCancels("failed to generate token: ", e1.detail, e2.detail); }
      } else if e1.UnregisteredUser? || e2.UnregisteredUser? || e1.IncorrectPassword? || e2.IncorrectPassword? {
        // the first letters differ: 'u', 'i' and 'f'
        assert t1[0] != t2[0];
      } else {
        // "failed to get: " and "failed to generate token: " part at index 12
        assert t1[12] != t2[12];
      }
    }
  }
}
