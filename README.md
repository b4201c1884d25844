# SmartHouse-Server authentication and device state, in Dafny

This project models the credential-and-session subsystem of the SmartHouse
server (a Go program): registering a house member, logging in, and issuing
session tokens over a bolt key/value file with two buckets, `auth` and
`sessions`. It also models the small light and music handlers that change
the server's in-memory device state.

The repository holds several drafts of the authentication code side by side.
Their behaviour differs, so each one is its own module:

| module | source | what it is |
|---|---|---|
| `ServerStore`, `ServerAuth` | go/store.go, go/auth.go | the live variant, behind the HTTP routes |
| `RawStore`, `PackageAuth` | auth/store/store.go, auth/auth.go | a package that returns raw session bytes and has no delete |
| `ParsingStore` | auth/store.go | a store that parses creation times, like go/store.go |
| `PrototypeAuth` | auth.go | the first prototype, with an unbounded session loop |
| `Kv` | kv/kv.go | a byte-keyed store |
| `Lights`, `Music` | go/lights.go, go/music.go | the device handlers |

Four modules are shared:

- `Wrappers` holds `Option` and `Result`.
- `Strconv` holds Go's base-10 `ParseInt` and `FormatInt` for `int64`. They are modelled exactly: an optional sign, at least one ASCII digit, and a range check. The round trip between them is proved.
- `Bolt` holds bolt's rules for put, delete and get. A put with an empty key fails with `ErrKeyRequired`. Any other transaction failure is an outside `fault` flag. Deleting a missing key succeeds.
- `Credentials` holds the stored `credential` record, the password hash and the shared login check `Verify`.

Each store is a class with two `map` fields, one per bucket. The methods
update the fields in place and state the whole new state, and every write
leaves the other bucket unchanged. Each store keeps the invariant `Valid()`:
the empty key is never stored.

Each `newSession` loop is a method over the store, written as the source's
loop. It is proved against a recursive specification function (`IssueFrom`
or `Run`). Lemmas about that function state what the loop promises.

The environment is passed in as parameters:

- UUID generation, the clock and the success of each store transaction come from `draws(i)`, one `Attempt` per loop pass.
- The registration salt is a `Result`.
- PBKDF2-HMAC-SHA256 (section 5.2 of RFC 8018), base64-encoded (section 4 of RFC 4648), is a function parameter. Being a Dafny function, it is deterministic.
- The JSON encoding of the credential is a `Codec` parameter. Lemmas that need decoding to invert encoding say so with `RoundTrips(codec)`.
- Runtime panics (an index out of range) and `log.Fatalf` exits are result variants, not preconditions.

Behaviour of the session loops worth knowing:

- In go/auth.go, a candidate whose stored creation time does not parse is deleted, and then the same candidate is written in the same pass. A fresh candidate also goes through this path, because a missing token reads as the empty string, and `ParseInt` rejects that.
- When all six passes fail, `newSession` returns an empty token with a nil error, not a distinct exhaustion error. go/auth.go's `Login` turns the empty token into a failure whose message ends in `<nil>`. auth/auth.go's `Authenticate` passes `("", nil)` on to its caller.
- A stored creation time of `0` counts as free and is overwritten.

## Model

| member | source | states |
|---|---|---|
| Strconv.ParseInt | go/store.go:90 | a value is parsed only from a non-empty string that starts with a digit or a sign, so the empty string a missing key reads as is an error |
| Strconv.FormatInt | go/auth.go:155 | the decimal spelling of an int64: a minus sign for negative values, then the digits without leading zeros |
| Strconv.ParseFormatInt | go/auth.go:155 | a time written with `FormatInt` reads back with `ParseInt` as the same int64 |
| Strconv.FormatIntInjective | go/auth.go:155 | two int64 values have the same decimal spelling exactly when they are equal |
| Bolt.PutError | go/store.go:54-61 | a put succeeds exactly when the key is non-empty and the transaction does not fail; an empty key gives `ErrKeyRequired` |
| Bolt.DeleteError | go/store.go:99-107 | a delete fails only when its transaction fails, so a missing key is not an error |
| Bolt.Get | go/store.go:64-72 | a lookup yields a value exactly when the key is present, and then the stored value; otherwise nil |
| Credentials.Hash | go/auth.go:128-131 | the password hash: the given PBKDF2 function at 4096 iterations and a 64-byte key, the same in registration and login |
| Credentials.Verify | go/auth.go:38-63 | the login check, in the source's order: the user is looked up, then the record decoded, then the hash of the password under the stored salt compared with the stored key |
| Credentials.Enroll | go/auth.go:102-104 | the stored record carries the fresh salt and the hash of the password under that salt |
| Credentials.EnrollThenMatch | go/auth.go:128-131 | the enrolled password matches its record, and another password matches exactly when its hash under the same salt is equal |
| Credentials.VerifyCases | go/auth.go:38-63 | the check reports an unregistered user exactly when the name is absent; it accepts exactly when the record decodes and the hashes agree, and reports a wrong password exactly when the record decodes and they differ |
| Credentials.EnrollThenVerify | go/auth.go:95-112 | after a registration stores its record, the same password is accepted and a password whose hash differs is refused, whatever was stored under the name before |
| ServerStore.CreationOf | go/store.go:85-96 | no error exactly when the token is present and its value parses, and then the parsed time; otherwise `(0, error)`, which includes a missing token |
| ServerStore.AuthStore.constructor | go/store.go:37-48 | `NewAuthDB` starts with both buckets empty |
| ServerStore.AuthStore.PutUser | go/store.go:54-61 | on success the user maps to the new credentials, replacing any earlier entry; sessions are unchanged; on failure nothing changes |
| ServerStore.AuthStore.UserCredentials | go/store.go:64-72 | the stored credentials exactly when the user is present; nil and no error otherwise |
| ServerStore.AuthStore.PutSession | go/store.go:75-82 | on success the token maps to the given creation value; users are unchanged; on failure nothing changes |
| ServerStore.AuthStore.SessionCreation | go/store.go:85-96 | its pair is the token's `CreationOf` |
| ServerStore.AuthStore.DeleteSession | go/store.go:99-107 | on success exactly that token is removed; other sessions and all users are unchanged |
| ServerStore.PutThenCreation | go/store.go:75-96 | a session stored as `FormatInt(now)` reads back as `(now, nil)` |
| ServerAuth.Step | go/auth.go:137-160 | one pass of the loop: a UUID error returns; an unparseable entry is deleted and a failed delete skips the candidate; a nonzero time skips it; a failed put skips it; otherwise the current time is written and the candidate returned |
| ServerAuth.IssueFrom | go/auth.go:136-162 | the passes from `i` to `maxRetries`, ending in `("", nil)` with the bucket as the passes left it |
| ServerAuth.NewSession | go/auth.go:135-163 | the token, the error and the new sessions bucket are those of the specification `Issue` on the old bucket; users are unchanged |
| ServerAuth.StepContinue | go/auth.go:142-153 | a pass that goes on to the next candidate only deletes, and never deletes an entry in use |
| ServerAuth.StepReturn | go/auth.go:137-160 | a pass that returns either reports the UUID error with an empty token and nothing changed, or writes the current time under a drawn candidate that was not in use |
| ServerAuth.IssueFromFacts | go/auth.go:136-162 | from any pass on: an error has an empty token; entries in use keep their values; apart from the token the loop only deletes; a token was drawn in a remaining pass, was not in use and now maps to that pass's time |
| ServerAuth.IssueOutcome | go/auth.go:135-163 | the same for the whole call, and the returned token's creation reads back as that pass's time with no error |
| ServerAuth.IssueFromUsesFirstDraws | go/auth.go:136 | from any pass on, only the draws up to pass `maxRetries` affect the result |
| ServerAuth.IssueUsesFirstDraws | go/auth.go:18 | the loop makes at most six passes: the first six draws decide the result |
| ServerAuth.AllTakenExhaustsFrom | go/auth.go:150-162 | from any pass on, candidates that are all in use end the loop with an empty token, a nil error and the bucket unchanged |
| ServerAuth.AllTakenExhausts | go/auth.go:150-162 | six candidates in use give `("", nil)` and change nothing |
| ServerAuth.CorruptEntryReclaimed | go/auth.go:142-158 | a candidate whose stored value is not a number is deleted, then written with the current time in the same pass |
| ServerAuth.ZeroTimeIsFree | go/auth.go:151-158 | a candidate stored with time 0 counts as free and is overwritten |
| ServerAuth.FreshCandidateSkippedOnDeleteFault | go/auth.go:142-148 | a candidate that is absent still goes through the delete; if that delete fails, the candidate is given up |
| ServerAuth.Message | go/auth.go:40-67 | the text after "Login failed: " for each refusal, with a nil session error printed as `<nil>` |
| ServerAuth.Login | go/auth.go:38-71 | an unknown user, an undecodable record and a wrong password each give their own failure and create no session; an accepted login issues a session and returns the token, or fails when the token is empty or the error is set |
| ServerAuth.Register | go/auth.go:95-118 | a salt failure changes nothing; otherwise the encoded record of the password under the salt replaces any entry for the user, unless the put fails; sessions are unchanged |
| ServerAuth.RegisterThenLogin | go/auth.go:38-118 | after a successful registration, login with the same password is refused only for session issuing; a returned token is non-empty and stored |
| RawStore.AuthStore.constructor | auth/store/store.go:22-46 | `NewAuthDB` starts with both buckets empty |
| RawStore.AuthStore.PutUser | auth/store/store.go:49-56 | on success the user maps to the new credentials, replacing any earlier entry; sessions are unchanged |
| RawStore.AuthStore.UserCredentials | auth/store/store.go:59-67 | the stored bytes exactly when the user is present; nil otherwise |
| RawStore.AuthStore.PutSession | auth/store/store.go:70-77 | on success the token maps to the given bytes; users are unchanged; the set of tokens only grows |
| RawStore.AuthStore.SessionCreation | auth/store/store.go:80-88 | the raw stored bytes exactly when the token is present, nil otherwise; nothing is parsed |
| PackageAuth.IssueFrom | auth/auth.go:77-94 | the passes from `i` to `maxRetries`: a UUID error returns; a candidate with non-empty stored bytes or a failed put is skipped; otherwise the current time is written and the candidate returned; exhaustion gives `("", nil)` |
| PackageAuth.NewSession | auth/auth.go:76-95 | the token, the error and the new bucket are those of the specification `Issue` on the old bucket; users are unchanged |
| PackageAuth.IssueFromFacts | auth/auth.go:77-94 | from any pass on: an error has an empty token; an empty token leaves the bucket unchanged; a token was drawn in a remaining pass, was not occupied, and is the only entry written, with that pass's time |
| PackageAuth.IssueOutcome | auth/auth.go:76-95 | the same for the whole call, and occupied entries are never overwritten |
| PackageAuth.IssueFromUsesFirstDraws | auth/auth.go:77 | from any pass on, only the draws up to pass `maxRetries` affect the result |
| PackageAuth.IssueUsesFirstDraws | auth/auth.go:18 | at most six passes: the first six draws decide the result |
| PackageAuth.AllOccupiedExhaustsFrom | auth/auth.go:83-94 | from any pass on, candidates whose stored bytes are all non-empty end the loop with `("", nil)` and nothing written |
| PackageAuth.AllOccupiedExhausts | auth/auth.go:83-94 | six occupied candidates give `("", nil)` and write nothing |
| PackageAuth.Authenticate | auth/auth.go:45-67 | an unknown user, an undecodable record and a wrong password each return their own error with an empty token and no session; an accepted login returns `newSession`'s token with a nil error, and a UUID failure as an error |
| PackageAuth.Register | auth/auth.go:26-42 | a salt failure exits and changes nothing; otherwise the encoded record replaces any entry for the user, or the process exits when the put fails |
| PackageAuth.ErrorText | auth/auth.go:48-63 | the text of each error `Authenticate` returns |
| PackageAuth.ErrorTextInjective | auth/auth.go:48-63 | two errors have the same text exactly when they are the same error, so "unregistered user: <user>" names exactly that user |
| ParsingStore.AuthStore.constructor | auth/store.go:23-47 | `NewAuthDB` returns a handle whose two buckets are empty |
| ParsingStore.AuthStore.PutUser | auth/store.go:50-57 | on success the user maps to the new credentials, replacing any earlier entry; sessions are unchanged |
| ParsingStore.AuthStore.UserCredentials | auth/store.go:60-68 | the stored credentials exactly when the user is present; nil otherwise |
| ParsingStore.AuthStore.PutSession | auth/store.go:71-78 | on success the token maps to the given creation value; users are unchanged |
| ParsingStore.AuthStore.SessionCreation | auth/store.go:81-92 | no error exactly when the token is present and its value parses, and then the parsed time; otherwise `(0, error)` |
| ParsingStore.AuthStore.DeleteSession | auth/store.go:95-103 | on success exactly that token is removed; users are unchanged |
| PrototypeAuth.Db.constructor | auth.go:94-115 | `buildDB` starts with both buckets empty |
| PrototypeAuth.Db.Get | auth.go:68-70 | a bucket lookup yields the stored value exactly when the key is present |
| PrototypeAuth.Db.Put | auth.go:48-57 | an update writes only the named bucket, and only when the put succeeds |
| PrototypeAuth.Step | auth.go:127-146 | one pass of the loop: a UUID error returns; a non-empty value under the probed key, or a failed put, retries; otherwise the current time is written under the candidate and it is returned |
| PrototypeAuth.Run | auth.go:125-147 | the passes of the loop, at most `fuel` of them, until one returns |
| PrototypeAuth.NewSessionAsWritten | auth.go:124-150 | the loop as written, probing key `token`: its outcome and bucket are those of `Run` with the probe on the empty key |
| PrototypeAuth.NewSession | auth.go:124-150 | the loop with the candidate probed: its outcome and bucket are those of `Run` with the probe on `uuid` |
| PrototypeAuth.AsWrittenProbeNeverFires | auth.go:134-137 | as written, a pass retries only when its write fails, never because of a collision |
| PrototypeAuth.AsWrittenOverwritesLiveSession | auth.go:132-145 | as written, a candidate with a live session is returned and its creation time overwritten |
| PrototypeAuth.IntendedSkipsLiveSession | auth.go:134-137 | with the candidate probed, a live session is skipped and kept |
| PrototypeAuth.RunKeepsOccupied | auth.go:125-147 | with the candidate probed, occupied entries are never touched; a token was not occupied and is the only key written, with the time of the pass that drew it; any other ending writes nothing |
| PrototypeAuth.RunWrites | auth.go:125-147 | for the loop as written and for the probed one: a returned token was drawn in one of the passes run and is the only key written, mapped to that pass's time; any other ending writes nothing |
| PrototypeAuth.NoRetryBound | auth.go:125-147 | there is no retry bound, for the loop as written and for the probed one: after any number of failed writes, the first successful write ends the loop with that candidate |
| PrototypeAuth.Register | auth.go:41-62 | a salt failure exits; otherwise the encoded record replaces any entry for the user inside one update, or the process exits when the put fails |
| PrototypeAuth.Login | auth.go:65-92 | an unknown user, an undecodable record and a wrong password each end the process with no session written; an accepted login returns the token the session loop writes, with the loop as written or with the corrected probe |
| Kv.Storage.constructor | kv/kv.go:27-49 | `NewDB` starts with both buckets empty |
| Kv.Storage.PutUser | kv/kv.go:51-58 | on success the user maps to the new bytes, replacing any earlier value; sessions are unchanged |
| Kv.Storage.GetUser | kv/kv.go:60-68 | the stored bytes exactly when the user is present; nil otherwise |
| Kv.Storage.GetSession | kv/kv.go:70-78 | the stored bytes exactly when the token is present; nil otherwise |
| Kv.Storage.PutSession | kv/kv.go:80-87 | on success the token maps to the new bytes; users are unchanged |
| Kv.PutThenGet | kv/kv.go:51-87 | a successful put is read back by the matching get; after a refused put (an empty key or a failed transaction), the get sees the old value |
| Lights.ToUpper | go/lights.go:62 | the result has the same length, and each character is upper-cased |
| Lights.UpperIsOn | go/lights.go:62-76 | the state reads as ON exactly for the four spellings of "on" in any letter case |
| Lights.UpperIsOff | go/lights.go:62-78 | the state reads as OFF exactly for the eight spellings of "off" in any letter case |
| Lights.ToggleReply | go/lights.go:62-85 | the handler's reply from the light count and the two path parameters, deciding in the source's order: id, then state, then the index |
| Lights.SetLightState | go/lights.go:57-85 | the reply is `ToggleReply`'s; a toggle changes only the `TurnOn` of the light at index `id-1`; every other reply leaves all lights unchanged |
| Lights.ToggleReplyCases | go/lights.go:64-85 | a bad or too-large id is refused first; a toggle happens exactly for ids 1..len with state ON or OFF; an id below 1 with a valid state panics |
| Lights.ZeroIdPanics | go/lights.go:65-76 | light id "0" with state "on" reaches the index and panics |
| Lights.ToggleReplyChecked | go/lights.go:65 | with a lower bound on the id, no request panics, and a toggle always names a light that exists |
| Lights.CheckedAgreesFromOne | go/lights.go:65 | the checked reply equals the handler's for every id of at least 1, and refuses ids below 1 |
| Lights.LightState | go/lights.go:21-40 | a non-numeric id is an error; the light at index `id-1` is returned exactly for ids 1..len; any other id panics |
| Music.Player.constructor | go/music.go:42-45 | stands for the package-level `tracks`, `trackPlaying` and `activeTrack` the handlers read and assign, whose definitions are not part of this model; the player holds exactly the values given |
| Music.Player.Summary | go/music.go:39-56 | the summary is exactly the current playing flag and active track |
| Music.Player.SetMusicState | go/music.go:84-104 | "on" starts and "off" stops playback; any other state, "ON" included, is refused with nothing changed; the active track never changes |
| Music.Player.PlayTrack | go/music.go:58-82 | an unreadable or undecodable body changes nothing; a decoded track sets playing and selects `tracks[ID-1]`; an ID outside 1..len panics after playing was already set |

## Left out

- HTTP plumbing: request decoding, response headers, status codes, the route table and `main`. Decoded requests come in as values and replies go out as result variants.
- PBKDF2 and base64: they are foreign library code, so the hash is an uninterpreted function parameter.
- JSON encoding of the credential and of request bodies: the encoding is a parameter. `json.Marshal` of the two-string credential never fails, so its error branches are left out.
- UUID generation and the clock: these are randomness and time, so they come from the `draws` stream and the `salt` parameter.
- Bolt itself: the file, transactions, and the one-second open timeout are persistence I/O. Failures of update transactions, including bolt's key and value size limits, are the `fault` flag. Read transactions are taken never to fail.
- The removal and opening of the database file in `NewAuthDB`, `NewDB` and `buildDB`, and their error exits: this is file-system I/O. The constructors model only the fresh, empty buckets.
- The package-level `db` variable of go/store.go: the store is passed explicitly.
- The `Lights` handler (a JSON dump of all lights), `MusicAvailable` (a JSON dump of the catalogue), and the marshalling error branches of every handler: these are encoding only.
- The `LIVE` serial-port branch of `SetLightState` and the mutex around it: this is device I/O, and `LIVE` is off.
- The definitions of the `lights` and `tracks` values: they are not part of this model. The handlers and the player constructor take them as inputs.
- `expirationSeconds` and `secret`: nothing on the call path uses them, so no expiry or secret check is modelled.
- go/authentication.go, go/environment.go, go/settings.go and go/server.go: these are a stub, sensor and serial I/O, float settings, and server wiring. None of them is part of this model.
- PrototypeAuth.NewSession and PrototypeAuth.NewSessionAsWritten: the unbounded loop of auth.go is bounded by a `fuel` parameter. `StillLooping`, and `Unfinished` in PrototypeAuth.Login, mean only that the loop did not end within `fuel` passes. The source keeps looping. NoRetryBound shows that no fixed bound is built in.
- Concurrency between requests: the model covers one request at a time.
- Lights.ToUpper: only ASCII letters are upper-cased, while Go's `strings.ToUpper` maps every letter. The ON/OFF decision is still exact, because no other letter upper-cases to O, N or F. Only the echoed text of an invalid command can differ.
- Lights.LightState and Lights.SetLightState: `strconv.Atoi` is modelled as `ParseInt` with base 10 and 64 bits, which is what it accepts on a 64-bit platform.

## Findings

| source | as written | input that shows it | evidently intended | confidence | as-written member | corrected member |
|---|---|---|---|---|---|---|
| auth.go:134 | the collision check reads the sessions entry for `token`, the still-empty named result, so it never finds anything | a drawn UUID that already has a live session | read the entry for the candidate `uuid`, and skip it when occupied | high, not executed | PrototypeAuth.AsWrittenOverwritesLiveSession | PrototypeAuth.RunKeepsOccupied |
| go/lights.go:65 | the id is checked only against `len(lights)`, not against 1 | `lightID = "0"`, `state = "on"` indexes `lights[-1]` and panics | refuse ids below 1 like ids above the count | high, not executed | Lights.ZeroIdPanics | Lights.ToggleReplyChecked |
