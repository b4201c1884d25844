/**
 * Registration, login and session issuing of go/auth.go, the variant the live
 * server routes to, with the HTTP handling stripped: a decoded request comes
 * in as plain user name and password, and the response is a result value.
 *
 * The environment of one pass of `newSession`'s loop (the UUID generator,
 * the clock and whether each store transaction fails) is an `Attempt`; the
 * passes draw from a stream `draws`, pass `i` reading `draws(i)`.
 */
module ServerAuth {
  import opened Wrappers
  import opened Strconv
  import opened Credentials
  import Bolt
  import ServerStore

  const MaxRetries: nat := 6

  /** What one pass of the loop gets from outside: a UUID or its generator's error, the clock, and the fate of the delete and of the put. */
  datatype Attempt = Attempt(uuid: Result<string, string>, now: Int64, deleteFault: bool, putFault: bool)

  type Draws = nat -> Attempt

  /** `newSession`'s result `(token, err)` with the sessions bucket it leaves behind. */
  datatype Issued = Issued(token: string, err: Option<string>, sessions: map<string, string>)

  /** A stored creation time the loop treats as "in use": it parses, and not to zero. */
  predicate InUse(created: string) {
    var p := ParseInt(created);
    p.Some? && p.value != 0
  }

  /** The token has a session entry that is in use. */
  predicate Taken(sessions: map<string, string>, token: string) {
    token in sessions && InUse(sessions[token])
  }

  /** What one pass of the loop body does: return from the call, or go on to the next pass with this bucket. */
  datatype Pass = Return(issued: Issued) | Continue(sessions: map<string, string>)

  /**
   * One pass of `newSession`'s loop. A failed UUID ends the call with an
   * error. A candidate whose creation time does not parse (a missing token
   * included) is deleted first, and skipped only if that delete fails; a
   * nonzero creation time means the candidate is in use and it is skipped;
   * otherwise the current time is written under it and, if the write
   * succeeds, it is the token.
   */
  function Step(sessions: map<string, string>, a: Attempt): Pass {
    match a.uuid
    case Failure(e) => Return(Issued("", Some("failed to generate uuid: " + e), sessions))
    case Success(uuid) =>
      var c := ServerStore.CreationOf(sessions, uuid);
      if c.err && Bolt.DeleteError(a.deleteFault).Some? then Continue(sessions)
      else
        var s := if c.err then sessions - {uuid} else sessions;
        if c.created != 0 then Continue(s)
        else if Bolt.PutError(uuid, a.putFault).Some? then Continue(s)
        else Return(Issued(uuid, None, s[uuid := FormatInt(a.now)]))
  }

  /** `newSession` from pass `i` on; after `MaxRetries` passes the result is an empty token and no error. */
  function IssueFrom(sessions: map<string, string>, draws: Draws, i: nat): Issued
    requires i <= MaxRetries
    decreases MaxRetries - i
  {
    if i == MaxRetries then Issued("", None, sessions)
    else
      match Step(sessions, draws(i))
      case Return(r) => r
      case Continue(s) => IssueFrom(s, draws, i + 1)
  }

  function Issue(sessions: map<string, string>, draws: Draws): Issued {
    IssueFrom(sessions, draws, 0)
  }

  /** `newSession`: the bounded retry loop over the store's session bucket. */
  method NewSession(db: ServerStore.AuthStore, draws: Draws) returns (token: string, err: Option<string>)
    requires db.Valid()
    modifies db
    ensures db.Valid()
    ensures Issued(token, err, db.sessions) == Issue(old(db.sessions), draws)
    ensures db.users == old(db.users)
  {
    token, err := "", None;
    for i := 0 to MaxRetries
      invariant db.Valid() && db.users == old(db.users)
      invariant IssueFrom(db.sessions, draws, i) == Issue(old(db.sessions), draws)
    {
      var a := draws(i);
      if a.uuid.Failure? {
        return "", Some("failed to generate uuid: " + a.uuid.error);
      }
      var uuid := a.uuid.value;
      var created, parseErr := db.SessionCreation(uuid);
      if parseErr {
        var deleteErr := db.DeleteSession(uuid, a.deleteFault);
        if deleteErr.Some? {
          continue;
        }
      }
      // Continue to generate a new token if the current one exists
      if created != 0 {
        continue;
      }
      var time := FormatInt(a.now);
      var putErr := db.PutSession(uuid, time, a.putFault);
      if putErr.None? {
        token := uuid;
        break;
      }
    }
  }

  /** Every entry of `smaller` is an entry of `larger`. */
  ghost predicate SubBucket(smaller: map<string, string>, larger: map<string, string>) {
    forall k :: k in smaller ==> k in larger && smaller[k] == larger[k]
  }

  /** Every entry of `before` that is in use is still in `after`, unchanged. */
  ghost predicate KeepsTaken(after: map<string, string>, before: map<string, string>) {
    forall k :: Taken(before, k) ==> k in after && after[k] == before[k]
  }

  /** A pass that goes on only deletes, and never an entry in use. */
  lemma StepContinue(sessions: map<string, string>, a: Attempt)
    requires Step(sessions, a).Continue?
    ensures SubBucket(Step(sessions, a).sessions, sessions)
    ensures KeepsTaken(Step(sessions, a).sessions, sessions)
  {
    var uuid := a.uuid.value;
    var c := ServerStore.CreationOf(sessions, uuid);
    assert c.err ==> !Taken(sessions, uuid);
  }

  /** A pass that returns either fails on the UUID and changes nothing, or writes the time under a candidate that was not in use. */
  lemma StepReturn(sessions: map<string, string>, a: Attempt)
    requires Step(sessions, a).Return?
    ensures var r := Step(sessions, a).issued;
      && (r.err.Some? ==> r.token == "" && r.sessions == sessions)
      && (r.err.None? ==>
            && a.uuid == Success(r.token) && r.token != "" && !Taken(sessions, r.token)
            && r.token in r.sessions && r.sessions[r.token] == FormatInt(a.now)
            && SubBucket(r.sessions - {r.token}, sessions)
            && KeepsTaken(r.sessions, sessions))
  {
    if a.uuid.Success? {
      var uuid := a.uuid.value;
      var c := ServerStore.CreationOf(sessions, uuid);
      assert !Taken(sessions, uuid);
    }
  }

  /** Only the first `MaxRetries` draws matter: the loop makes at most six passes. */
  lemma {:induction false} IssueFromUsesFirstDraws(sessions: map<string, string>, d1: Draws, d2: Draws, i: nat)
    requires i <= MaxRetries
    requires forall j :: i <= j < MaxRetries ==> d1(j) == d2(j)
    ensures IssueFrom(sessions, d1, i) == IssueFrom(sessions, d2, i)
    decreases MaxRetries - i
  {
    if i < MaxRetries && Step(sessions, d1(i)).Continue? {
      IssueFromUsesFirstDraws(Step(sessions, d1(i)).sessions, d1, d2, i + 1);
    }
  }

  lemma IssueUsesFirstDraws(sessions: map<string, string>, d1: Draws, d2: Draws)
    requires forall j :: 0 <= j < MaxRetries ==> d1(j) == d2(j)
    ensures Issue(sessions, d1) == Issue(sessions, d2)
  {
    IssueFromUsesFirstDraws(sessions, d1, d2, 0);
  }

  /**
   * What a call from pass `i` on leaves in the bucket and returns. An error
   * comes with an empty token. Entries in use keep their values. Apart from
   * the returned token, the only changes are deletions. A non-empty token
   * was not in use before, was drawn in one of the remaining passes, and is
   * recorded with that pass's clock reading. The pass is returned in `j`.
   */
  lemma {:induction false} IssueFromFacts(sessions: map<string, string>, draws: Draws, i: nat) returns (j: nat)
    requires i <= MaxRetries
    ensures var r := IssueFrom(sessions, draws, i);
      && (r.err.Some? ==> r.token == "")
      && KeepsTaken(r.sessions, sessions)
      && SubBucket(r.sessions - {r.token}, sessions)
      && (r.token != "" ==>
            && !Taken(sessions, r.token)
            && i <= j < MaxRetries && draws(j).uuid == Success(r.token)
            && r.token in r.sessions && r.sessions[r.token] == FormatInt(draws(j).now))
    decreases MaxRetries - i
  {
    j := i;
    if i < MaxRetries {
      var p := Step(sessions, draws(i));
      if p.Return? {
        StepReturn(sessions, draws(i));
      } else {
        StepContinue(sessions, draws(i));
        j := IssueFromFacts(p.sessions, draws, i + 1);
      }
    }
  }

  /**
   * `newSession`'s promise: a non-empty token is one of the drawn UUIDs
   * that was not in use, and the bucket now maps it to that pass's time,
   * which `SessionCreation` reads back without error. Entries in use are
   * never touched; besides the token's entry, the call only deletes.
   */
  lemma IssueOutcome(sessions: map<string, string>, draws: Draws)
    ensures var r := Issue(sessions, draws);
      && (r.err.Some? ==> r.token == "")
      && KeepsTaken(r.sessions, sessions)
      && SubBucket(r.sessions - {r.token}, sessions)
      && (r.token != "" ==>
            && !Taken(sessions, r.token)
            && exists j :: 0 <= j < MaxRetries && draws(j).uuid == Success(r.token)
                 && ServerStore.CreationOf(r.sessions, r.token) == ServerStore.Creation(draws(j).now, false))
  {
    var j := IssueFromFacts(sessions, draws, 0);
    var r := Issue(sessions, draws);
    if r.token != "" {
      ServerStore.PutThenCreation(r.sessions, r.token, draws(j).now);
      assert r.sessions[r.token := FormatInt(draws(j).now)] == r.sessions;
    }
  }

  /** Six candidates that are all in use exhaust the loop: empty token, nil error, nothing changed. */
  lemma {:induction false} AllTakenExhaustsFrom(sessions: map<string, string>, draws: Draws, i: nat)
    requires i <= MaxRetries
    requires forall j :: i <= j < MaxRetries ==> draws(j).uuid.Success? && Taken(sessions, draws(j).uuid.value)
    ensures IssueFrom(sessions, draws, i) == Issued("", None, sessions)
    decreases MaxRetries - i
  {
    if i < MaxRetries {
      var uuid := draws(i).uuid.value;
      assert ServerStore.CreationOf(sessions, uuid).created != 0;
      AllTakenExhaustsFrom(sessions, draws, i + 1);
    }
  }

  lemma AllTakenExhausts(sessions: map<string, string>, draws: Draws)
    requires forall j :: 0 <= j < MaxRetries ==> draws(j).uuid.Success? && Taken(sessions, draws(j).uuid.value)
    ensures Issue(sessions, draws) == Issued("", None, sessions)
  {
    AllTakenExhaustsFrom(sessions, draws, 0);
  }

  /**
   * A candidate whose stored value is not a number is deleted and then
   * reused: the same pass writes the current time under it.
   */
  lemma CorruptEntryReclaimed(sessions: map<string, string>, draws: Draws, uuid: string)
    requires draws(0).uuid == Success(uuid) && uuid != ""
    requires uuid in sessions && ParseInt(sessions[uuid]).None?
    requires !draws(0).deleteFault && !draws(0).putFault
    ensures Issue(sessions, draws) == Issued(uuid, None, sessions[uuid := FormatInt(draws(0).now)])
  {
    assert (sessions - {uuid})[uuid := FormatInt(draws(0).now)] == sessions[uuid := FormatInt(draws(0).now)];
  }

  /** A stored time of zero does not count as in use: the candidate is overwritten. */
  lemma ZeroTimeIsFree(sessions: map<string, string>, draws: Draws, uuid: string)
    requires draws(0).uuid == Success(uuid) && uuid != ""
    requires uuid in sessions && ParseInt(sessions[uuid]) == Some(0)
    requires !draws(0).putFault
    ensures Issue(sessions, draws) == Issued(uuid, None, sessions[uuid := FormatInt(draws(0).now)])
  {
  }

  /**
   * A fresh candidate also reads as an error, so it goes through the delete:
   * when that (no-op) delete fails, the candidate is given up.
   */
  lemma FreshCandidateSkippedOnDeleteFault(sessions: map<string, string>, draws: Draws, uuid: string)
    requires draws(0).uuid == Success(uuid) && uuid !in sessions && draws(0).deleteFault
    ensures Issue(sessions, draws) == IssueFrom(sessions, draws, 1)
  {
  }

  /** Why `Login` refuses. */
  datatype LoginFailure =
    | UnregisteredUser(user: string)
    | UnmarshalFailed(detail: string)
    | IncorrectPassword
    | SessionFailed(err: Option<string>)

  datatype LoginResult = LoggedIn(token: string) | Refused(failure: LoginFailure)

  /** The text after "Login failed: " in the response; a nil error prints as `<nil>`. */
  function Message(f: LoginFailure): string {
    match f
    case UnregisteredUser(user) => "unregistered user: " + user
    case UnmarshalFailed(detail) => "failed to unmarshal json: " + detail
    case IncorrectPassword => "incorrect password"
    case SessionFailed(err) => "failed to generate session token: " + (if err.Some? then err.value else "<nil>")
  }

  /**
   * `Login`: look the user up, decode the stored credential, compare the
   * hash of the offered password under the stored salt with the stored key,
   * then issue a session. A refused login leaves the sessions alone; an empty
   * token from `newSession`, which is how it reports exhaustion, is a
   * refusal too.
   */
  method Login(db: ServerStore.AuthStore, codec: Codec, pbkdf2: Pbkdf2, user: string, pw: string, draws: Draws)
    returns (r: LoginResult)
    requires db.Valid()
    modifies db
    ensures db.Valid() && db.users == old(db.users)
    ensures match Verify(old(db.users), codec, pbkdf2, user, pw)
      case Unregistered => r == Refused(UnregisteredUser(user)) && db.sessions == old(db.sessions)
      case Undecodable(e) => r == Refused(UnmarshalFailed(e)) && db.sessions == old(db.sessions)
      case WrongPassword => r == Refused(IncorrectPassword) && db.sessions == old(db.sessions)
      case Accepted =>
        var o := Issue(old(db.sessions), draws);
        && db.sessions == o.sessions
        && r == if o.err.None? && o.token != "" then LoggedIn(o.token) else Refused(SessionFailed(o.err))
  {
    var stored := db.UserCredentials(user);
    if stored.None? {
      return Refused(UnregisteredUser(user));
    }
    var creds := codec.unmarshal(stored.value);
    if creds.Failure? {
      return Refused(UnmarshalFailed(creds.error));
    }
    var key := Hash(pbkdf2, pw, creds.value.salt);
    if key != creds.value.key {
      return Refused(IncorrectPassword);
    }
    var token, err := NewSession(db, draws);
    if err.Some? || token == "" {
      return Refused(SessionFailed(err));
    }
    r := LoggedIn(token);
  }

  /** Why `Register` answers "Registration failed.". */
  datatype RegisterFailure = UuidFailed(detail: string) | PutFailed(err: Bolt.TxError)

  datatype RegisterResult = Registered | RegistrationFailed(failure: RegisterFailure)

  /**
   * `Register`: draw a salt, derive the key and store the encoded credential
   * under the user name, replacing any earlier registration; there is no
   * check that the name is already taken.
   */
  method Register(db: ServerStore.AuthStore, codec: Codec, pbkdf2: Pbkdf2, user: string, pw: string,
                  salt: Result<string, string>, fault: bool)
    returns (r: RegisterResult)
    requires db.Valid()
    modifies db
    ensures db.Valid() && db.sessions == old(db.sessions)
    ensures salt.Failure? ==> r == RegistrationFailed(UuidFailed(salt.error)) && db.users == old(db.users)
    ensures salt.Success? ==>
      var e := Bolt.PutError(user, fault);
      && r == (if e.None? then Registered else RegistrationFailed(PutFailed(e.value)))
      && db.users == if e.None? then old(db.users)[user := codec.marshal(Enroll(pbkdf2, pw, salt.value))] else old(db.users)
  {
    if salt.Failure? {
      return RegistrationFailed(UuidFailed(salt.error));
    }
    var key := Hash(pbkdf2, pw, salt.value);
    var buf := codec.marshal(Credential(key, salt.value));
    var err := db.PutUser(user, buf, fault);
    if err.Some? {
      return RegistrationFailed(PutFailed(err.value));
    }
    r := Registered;
  }

  /**
   * Register followed by Login with the same password: once registration
   * succeeds, the login is never refused for the credentials; it yields a
   * token unless session issuing itself gives up.
   */
  method RegisterThenLogin(db: ServerStore.AuthStore, codec: Codec, pbkdf2: Pbkdf2, user: string, pw: string,
                           salt: Result<string, string>, fault: bool, draws: Draws)
    returns (reg: RegisterResult, login: LoginResult)
    requires db.Valid() && RoundTrips(codec)
    modifies db
    ensures db.Valid()
    ensures reg == Registered ==> login.LoggedIn? || login.failure.SessionFailed?
    ensures login.LoggedIn? ==> login.token in db.sessions && login.token != ""
  {
    reg := Register(db, codec, pbkdf2, user, pw, salt, fault);
    if salt.Success? {
      EnrollThenVerify(old(db.users), codec, pbkdf2, user, pw, pw, salt.value);
    }
    ghost var before := db.sessions;
    login := Login(db, codec, pbkdf2, user, pw, draws);
    IssueOutcome(before, draws);
  }
}
