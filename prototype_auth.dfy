/**
 * The first draft, auth.go (package main): `Register`, `Login` and
 * `newSession` work on the bolt database directly, every failure ends the
 * process through `log.Fatalf`, and `newSession` loops until a write
 * succeeds, with no retry bound.
 *
 * Its collision check looks up the named result `token`, which is still the
 * empty string inside the loop, instead of the candidate `uuid`. Bolt never
 * stores an empty key, so the check never fires and a candidate that equals
 * a live token overwrites that session. `NewSessionAsWritten` models the loop
 * as written; `NewSession` probes the candidate, as the later drafts do, and
 * is the one `Login` uses here.
 *
 * Dafny has no unbounded loops without a termination argument, so each loop
 * is given a `fuel` bound on its passes; running out of fuel is reported as
 * `StillLooping`, an outcome the program itself never returns.
 */
module PrototypeAuth {
  import opened Wrappers
  import opened Strconv
  import opened Credentials
  import Bolt

  datatype BucketName = AuthBucket | SessionBucket

  /** The `*bolt.DB` that `buildDB` opens, with its two buckets. */
  class Db {
    var auth: map<string, string>
    var sessions: map<string, string>

    /** Bolt never stores an empty key. */
    ghost predicate Valid()
      reads this
    {
      "" !in auth && "" !in sessions
    }

    /** `buildDB`: the old file is removed, so both buckets start empty. */
    constructor ()
      ensures Valid()
      ensures auth == map[] && sessions == map[]
    {
      auth := map[];
      sessions := map[];
    }

    function Bucket(name: BucketName): map<string, string>
      reads this
    {
      match name
      case AuthBucket => auth
      case SessionBucket => sessions
    }

    /** `tx.Bucket(name).Get(key)` inside a transaction. */
    method Get(name: BucketName, key: string) returns (v: Option<string>)
      ensures v == Bolt.Get(Bucket(name), key)
    {
      v := Bolt.Get(Bucket(name), key);
    }

    /** `db.Update` around `tx.Bucket(name).Put(key, value)`: only that bucket changes, and only on success. */
    method Put(name: BucketName, key: string, value: string, fault: bool) returns (err: Option<Bolt.TxError>)
      requires Valid()
      modifies this
      ensures Valid()
      ensures err == Bolt.PutError(key, fault)
      ensures name == AuthBucket ==> sessions == old(sessions) && auth == if err.None? then old(auth)[key := value] else old(auth)
      ensures name == SessionBucket ==> auth == old(auth) && sessions == if err.None? then old(sessions)[key := value] else old(sessions)
    {
      err := Bolt.PutError(key, fault);
      if err.None? {
        match name
        case AuthBucket => auth := auth[key := value];
        case SessionBucket => sessions := sessions[key := value];
      }
    }
  }

  /** What one pass of `newSession`'s loop gets from outside: a UUID or its generator's error, the clock, and the fate of the put. */
  datatype Attempt = Attempt(uuid: Result<string, string>, now: Int64, putFault: bool)

  type Draws = nat -> Attempt

  datatype Outcome = Token(token: string) | UuidFailed(detail: string) | StillLooping

  /** How `newSession` ends, with the sessions bucket it leaves behind. */
  datatype Looped = Looped(outcome: Outcome, sessions: map<string, string>)

  datatype Pass = Return(result: Looped) | Continue

  /** `len(v) != 0` for a value read from a bucket; a nil value has length 0. */
  predicate NonEmpty(v: Option<string>) {
    v.Some? && |v.value| != 0
  }

  /**
   * One pass of the loop. The update transaction probes a key and gives up
   * with "token exists" when its stored bytes are not empty; otherwise it
   * writes the current time under the candidate. A transaction that fails
   * either way leaves the bucket as it was. The probed key is the candidate
   * when `probeCandidate` holds and the empty string (the named result
   * `token`, as the source has it) otherwise.
   */
  function Step(sessions: map<string, string>, a: Attempt, probeCandidate: bool): Pass {
    match a.uuid
    case Failure(e) => Return(Looped(UuidFailed(e), sessions))
    case Success(uuid) =>
      var v := Bolt.Get(sessions, if probeCandidate then uuid else "");
      if NonEmpty(v) then Continue
      else if Bolt.PutError(uuid, a.putFault).Some? then Continue
      else Return(Looped(Token(uuid), sessions[uuid := FormatInt(a.now)]))
  }

  /** `newSession` over at most `fuel` passes from pass `i` on. */
  function Run(sessions: map<string, string>, draws: Draws, i: nat, fuel: nat, probeCandidate: bool): Looped
    decreases fuel
  {
    if fuel == 0 then Looped(StillLooping, sessions)
    else
      match Step(sessions, draws(i), probeCandidate)
      case Return(r) => r
      case Continue => Run(sessions, draws, i + 1, fuel - 1, probeCandidate)
  }

  /** The loop as written in auth.go: it probes `token` (the empty string), not `uuid`. */
  method NewSessionAsWritten(db: Db, draws: Draws, fuel: nat) returns (outcome: Outcome)
    requires db.Valid()
    modifies db
    ensures db.Valid() && db.auth == old(db.auth)
    ensures Looped(outcome, db.sessions) == Run(old(db.sessions), draws, 0, fuel, false)
  {
    var token := "";
    var invalid := true;
    var i := 0;
    while invalid && i < fuel
      invariant 0 <= i <= fuel
      invariant db.Valid() && db.auth == old(db.auth)
      invariant invalid ==> token == ""
      invariant invalid ==> Run(db.sessions, draws, i, fuel - i, false) == Run(old(db.sessions), draws, 0, fuel, false)
      invariant !invalid ==> Looped(Token(token), db.sessions) == Run(old(db.sessions), draws, 0, fuel, false)
    {
      var a := draws(i);
      if a.uuid.Failure? {
        return UuidFailed(a.uuid.error);
      }
      var uuid := a.uuid.value;
      var v := db.Get(SessionBucket, token);
      var err: Option<Bolt.TxError>;
      if NonEmpty(v) {
        err := Some(Bolt.TxFailed);  // "token exists"
      } else {
        err := db.Put(SessionBucket, uuid, FormatInt(a.now), a.putFault);
      }
      if err.None? {
        token := uuid;
        invalid := false;
      }
      i := i + 1;
    }
    outcome := if invalid then StillLooping else Token(token);
  }

  /** The loop with the candidate probed, as intended. */
  method NewSession(db: Db, draws: Draws, fuel: nat) returns (outcome: Outcome)
    requires db.Valid()
    modifies db
    ensures db.Valid() && db.auth == old(db.auth)
    ensures Looped(outcome, db.sessions) == Run(old(db.sessions), draws, 0, fuel, true)
  {
    var token := "";
    var invalid := true;
    var i := 0;
    while invalid && i < fuel
      invariant 0 <= i <= fuel
      invariant db.Valid() && db.auth == old(db.auth)
      invariant invalid ==> Run(db.sessions, draws, i, fuel - i, true) == Run(old(db.sessions), draws, 0, fuel, true)
      invariant !invalid ==> Looped(Token(token), db.sessions) == Run(old(db.sessions), draws, 0, fuel, true)
    {
      var a := draws(i);
      if a.uuid.Failure? {
        return UuidFailed(a.uuid.error);
      }
      var uuid := a.uuid.value;
      var v := db.Get(SessionBucket, uuid);
      var err: Option<Bolt.TxError>;
      if NonEmpty(v) {
        err := Some(Bolt.TxFailed);  // "token exists"
      } else {
        err := db.Put(SessionBucket, uuid, FormatInt(a.now), a.putFault);
      }
      if err.None? {
        token := uuid;
        invalid := false;
      }
      i := i + 1;
    }
    outcome := if invalid then StillLooping else Token(token);
  }

  /** The token has a session entry with non-empty bytes. */
  predicate Occupied(sessions: map<string, string>, token: string) {
    NonEmpty(Bolt.Get(sessions, token))
  }

  /** As written, the probe never fires: with no empty key in the bucket, a pass retries only when its write fails. */
  lemma AsWrittenProbeNeverFires(sessions: map<string, string>, a: Attempt)
    requires "" !in sessions
    ensures Step(sessions, a, false).Continue? <==> a.uuid.Success? && Bolt.PutError(a.uuid.value, a.putFault).Some?
  {
  }

  /**
   * As written, a candidate equal to a live token is written over it: the
   * session's creation time is replaced by the current one.
   */
  lemma AsWrittenOverwritesLiveSession(sessions: map<string, string>, draws: Draws, uuid: string, fuel: nat)
    requires "" !in sessions && fuel > 0
    requires draws(0).uuid == Success(uuid) && uuid != "" && !draws(0).putFault
    requires Occupied(sessions, uuid) && sessions[uuid] != FormatInt(draws(0).now)
    ensures Run(sessions, draws, 0, fuel, false) == Looped(Token(uuid), sessions[uuid := FormatInt(draws(0).now)])
    ensures Run(sessions, draws, 0, fuel, false).sessions[uuid] != sessions[uuid]
  {
  }

  /** The same input with the candidate probed: the live token is skipped and its session kept. */
  lemma IntendedSkipsLiveSession(sessions: map<string, string>, draws: Draws, uuid: string, fuel: nat)
    requires fuel > 0
    requires draws(0).uuid == Success(uuid) && Occupied(sessions, uuid)
    ensures Run(sessions, draws, 0, fuel, true) == Run(sessions, draws, 1, fuel - 1, true)
    ensures var r := Run(sessions, draws, 0, fuel, true); uuid in r.sessions && r.sessions[uuid] == sessions[uuid]
  {
    var _ := RunKeepsOccupied(sessions, draws, 1, fuel - 1);
  }

  /**
   * With the candidate probed, the loop never touches an occupied entry; a
   * returned token was not occupied and is the only key written, mapped to
   * the clock reading of the pass that drew it (returned in `j`); any other
   * ending writes nothing.
   */
  lemma {:induction false} RunKeepsOccupied(sessions: map<string, string>, draws: Draws, i: nat, fuel: nat) returns (j: nat)
    ensures var r := Run(sessions, draws, i, fuel, true);
      && (forall k :: Occupied(sessions, k) ==> k in r.sessions && r.sessions[k] == sessions[k])
      && (r.outcome.Token? ==>
            && !Occupied(sessions, r.outcome.token)
            && i <= j < i + fuel && draws(j).uuid == Success(r.outcome.token)
            && r.sessions == sessions[r.outcome.token := FormatInt(draws(j).now)])
      && (!r.outcome.Token? ==> r.sessions == sessions)
    decreases fuel
  {
    j := i;
    if fuel > 0 && Step(sessions, draws(i), true).Continue? {
      j := RunKeepsOccupied(sessions, draws, i + 1, fuel - 1);
    }
  }

  /**
   * What the loop writes, probing either key: a returned token was drawn in
   * one of the passes run, and it is the only key written, mapped to that
   * pass's clock reading (the pass is returned in `j`); any other ending
   * writes nothing.
   */
  lemma {:induction false} RunWrites(sessions: map<string, string>, draws: Draws, i: nat, fuel: nat, probeCandidate: bool)
    returns (j: nat)
    ensures var r := Run(sessions, draws, i, fuel, probeCandidate);
      && (r.outcome.Token? ==>
            && i <= j < i + fuel && draws(j).uuid == Success(r.outcome.token)
            && r.sessions == sessions[r.outcome.token := FormatInt(draws(j).now)])
      && (!r.outcome.Token? ==> r.sessions == sessions)
    decreases fuel
  {
    j := i;
    if fuel > 0 && Step(sessions, draws(i), probeCandidate).Continue? {
      j := RunWrites(sessions, draws, i + 1, fuel - 1, probeCandidate);
    }
  }

  /**
   * The loop has no retry bound: however many passes fail to write first,
   * the first pass whose write succeeds ends it with that candidate. This
   * holds for the loop as written (whose probe of the empty key finds
   * nothing, as no empty key is ever stored) and for the probed loop (when
   * that candidate is not occupied).
   */
  lemma {:induction false} NoRetryBound(sessions: map<string, string>, draws: Draws, i: nat, n: nat, probeCandidate: bool)
    requires forall k :: i <= k < i + n ==> draws(k).uuid.Success? && draws(k).putFault
    requires draws(i + n).uuid.Success? && draws(i + n).uuid.value != "" && !draws(i + n).putFault
    requires probeCandidate ==> !Occupied(sessions, draws(i + n).uuid.value)
    requires !probeCandidate ==> "" !in sessions
    ensures Run(sessions, draws, i, n + 1, probeCandidate) ==
      Looped(Token(draws(i + n).uuid.value), sessions[draws(i + n).uuid.value := FormatInt(draws(i + n).now)])
    decreases n
  {
    if n > 0 {
      NoRetryBound(sessions, draws, i + 1, n - 1, probeCandidate);
    }
  }

  /** Why `Register` ends the process. */
  datatype RegisterFatal = SaltFailed(detail: string) | PutFailed(err: Bolt.TxError)

  /**
   * `Register`: draw a salt, derive the key and, inside one update
   * transaction, store the encoded credential under the user, replacing any
   * earlier one. `Some` is the reason the process exits.
   */
  method Register(db: Db, codec: Codec, pbkdf2: Pbkdf2, user: string, pw: string, salt: Result<string, string>, fault: bool)
    returns (fatal: Option<RegisterFatal>)
    requires db.Valid()
    modifies db
    ensures db.Valid() && db.sessions == old(db.sessions)
    ensures salt.Failure? ==> fatal == Some(SaltFailed(salt.error)) && db.auth == old(db.auth)
    ensures salt.Success? ==>
      var e := Bolt.PutError(user, fault);
      && fatal == (if e.None? then None else Some(PutFailed(e.value)))
      && db.auth == if e.None? then old(db.auth)[user := codec.marshal(Enroll(pbkdf2, pw, salt.value))] else old(db.auth)
  {
    if salt.Failure? {
      return Some(SaltFailed(salt.error));
    }
    var key := Hash(pbkdf2, pw, salt.value);
    var buf := codec.marshal(Credential(key, salt.value));
    var err := db.Put(AuthBucket, user, buf, fault);
    if err.Some? {
      return Some(PutFailed(err.value));
    }
    fatal := None;
  }

  /** Why `Login` ends the process. */
  datatype LoginFatal =
    | UnregisteredUser(user: string)
    | GetFailed(detail: string)
    | IncorrectPassword
    | TokenFailed(detail: string)

  datatype LoginExit = LoggedIn(token: string) | Fatal(reason: LoginFatal) | Unfinished

  /**
   * `Login`: the credential check, each refusal fatal, then `newSession`,
   * as written when `probeCandidate` is false and with the corrected probe
   * when it is true. `Unfinished` means the session loop had not ended
   * within `fuel` passes.
   */
  method Login(db: Db, codec: Codec, pbkdf2: Pbkdf2, user: string, pw: string, draws: Draws, fuel: nat,
               probeCandidate: bool)
    returns (exit: LoginExit)
    requires db.Valid()
    modifies db
    ensures db.Valid() && db.auth == old(db.auth)
    ensures match Verify(old(db.auth), codec, pbkdf2, user, pw)
      case Unregistered => exit == Fatal(UnregisteredUser(user)) && db.sessions == old(db.sessions)
      case Undecodable(e) => exit == Fatal(GetFailed(e)) && db.sessions == old(db.sessions)
      case WrongPassword => exit == Fatal(IncorrectPassword) && db.sessions == old(db.sessions)
      case Accepted =>
        var r := Run(old(db.sessions), draws, 0, fuel, probeCandidate);
        && db.sessions == r.sessions
        && exit == match r.outcome
                   case Token(t) => LoggedIn(t)
                   case UuidFailed(e) => Fatal(TokenFailed("failed to generate uuid: " + e))
                   case StillLooping => Unfinished
  {
    var value := db.Get(AuthBucket, user);
    if value.None? {
      return Fatal(UnregisteredUser(user));
    }
    var creds := codec.unmarshal(value.value);
    if creds.Failure? {
      return Fatal(GetFailed(creds.error));
    }
    var key := Hash(pbkdf2, pw, creds.value.salt);
    if key != creds.value.key {
      return Fatal(IncorrectPassword);
    }
    var outcome;
    if probeCandidate {
      outcome := NewSession(db, draws, fuel);
    } else {
      outcome := NewSessionAsWritten(db, draws, fuel);
    }
    match outcome
    case Token(t) => exit := LoggedIn(t);
    case UuidFailed(e) => exit := Fatal(TokenFailed("failed to generate uuid: " + e));
    case StillLooping => exit := Unfinished;
  }
}
