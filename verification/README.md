# AuthCore: verified model of the authentication state machine

A Dafny model of AuthCore's authentication core and proofs about every run of it: refresh-token families with
their transactions and audit log, the brute-force lockout, the session cap, the MFA gate, one-time mail tokens,
passwords, role-based permissions, and the base32 and TOTP arithmetic of the demo client.

`dafny verify dfyconfig.toml` checks the whole project.

## How it is built

The services update rows step by step inside a database session. They appear here as classes whose methods do the
same: `AuthService.AuthService` works on a pending copy of the tables, commits where the program commits before it
raises, and is wrapped by `Serve`, which is `get_db`: commit on return, roll back on an exception.
`Lockout.RedisClient` is the Redis key space with expiry, `RbacService.RbacService` the role and permission calls.
Each method is proved equal to a specification function of `AuthSpec`, `Lockout` or `Rbac` that gives the committed
world and the reply of one request. `ServeAll` shows that serving a list of requests is a run of that specification,
and the theorems are about all runs.

A run yields a world and a transcript: the list of requests and replies that clients saw. The main theorems relate
the stored state to that transcript, not to the code that wrote it: tokens by when they were handed out, locks by the
times of the 401 answers, MFA by the setups and switches answered, permissions by the assignments answered. Durations
and limits are written out in these statements, in microseconds, and not through the model's own constants.

| module | subject |
|---|---|
| Prelude, Text | options, the clock, the string operations of Python that are used |
| LockoutKeys, Lockout, LockoutExact, LoginLock | lockout key names, counters and locks; exactly when a login is answered 423 |
| LockoutRate, LockoutIsolation, LoginRate, LockoutRuns | the rate bound, whose failures lock whom, both on whole runs |
| Sessions, SessionLedger, SessionCap | the top-k pruning, books on a session table, the cap and the books of whole runs |
| PasswordPolicy, Passwords | the rules for passwords, and which password signs in |
| AuthState, AuthSpec, AuthService | state, specification and program of the service calls |
| FamilyMoves, Families, Lifetimes | refresh-token families over runs, and how long tokens live |
| Accounts, UserStates, TokenMail, OneTimeTokens | users and mailed tokens over runs |
| Callers, MfaGate, MfaBooks | access tokens, the MFA gate, and what the MFA calls answer |
| Transactions, AuditTrail, AuditReplay | what a failed request commits; the audit row of each request; the log replayed |
| RefreshRace, RaceSafety, TokenColumns, SingleUse, OverlapExamples | refreshes, resets and verifications interleaved at Read Committed, and when a token is used once |
| Rbac, RbacService, RbacClosure, RbacAnswers | roles and permissions |
| Int32, Positional, Base32Text, Base32, Totp | the demo client's arithmetic |

## Assumptions

- SHA-256 and bcrypt are injective constructors; `checkpw` succeeds exactly on the hashed password.
- `uuid4`, `token_urlsafe` and TOTP secrets are fresh: they are drawn from one counter.
- Only signed tokens decode, and only before `exp`, which is in whole seconds. `AuthState.Settings.totp` is an
  arbitrary verdict on a secret, a code and an instant.
- The clock moves forward by at least one microsecond between requests; rows of one request carry its time, also
  `created_at`, which PostgreSQL takes from the start of the transaction. Settings are positive.
- A Redis key with expiry `e` exists while `now < e`. Each lockout call is one step.
- `is_active` and `is_superuser` change only by a step of the environment.
- On the server lower-casing and `\d` are those of ASCII. Rows with equal `last_active` are ordered by id.
- The breach look-up is a flag of the request: it accepts or rejects at will.
- A mail once queued is sent even if its request is rolled back. That makes no difference: a request that raises has
  queued nothing (`Transactions.RaisingCommitsOnlyAFailure`).
- At Read Committed a write changes only the columns that the ORM marks as changed, on the rows as they are by then;
  a new token can be presented once the transaction that issued it has committed.

## Where the code and its promises part

- A failed login sets the counter key with every "failed" replaced by "lockout". An account whose normalised address
  contains "failed" is therefore never locked, and the rate bound fails for it, over spans of any
  positive length (`LockoutKeys.DerivedKeyIsLockKeyIff`, `LockoutRate.LockableIff`, `LockoutIsolation.RateBoundIff`). What its failures
  set is the lock of another account: an account can be locked without enough failures of its own exactly when its
  address contains "lockout" and no "failed" (`LockoutIsolation.LockedByOthersIff`, and for runs of the whole service
  `LockoutRuns.LockedByOthersInRunsIff`). Wrong passwords for "failed@example.org" lock "lockout@example.org"
  (`LockoutIsolation.FailedLocksLockout`).
- Refresh tokens and mailed tokens are each meant for one use, and in the code each is read first and written later.
  `SingleUse.SingleUseIff` says exactly when one is used more than once: some request decides to use it while another
  one's use of it is in flight. `SingleUse.OneAtATime` is what a client can do: a token never presented while its use
  is in flight is used at most once, whatever else overlaps. `OverlapExamples` reaches the failures from an empty
  database; `RaceSafety.TwoRotations` and `RaceSafety.OverwrittenNeverAccepted` say what holds after one.
- The demo client writes the TOTP counter with one 32-bit store: `Totp.CounterBytesCorrect` holds exactly for time
  steps below 2^32.
- The rule against common passwords never decides alone: every listed password is too short anyway
  (`PasswordPolicy.CommonIsTooShort`).

## Model

| member | source | states |
|---|---|---|
| AuthService.AuthService.RecordAuditEvent | app/services/audit_service.py:9-29 | one row is added inside the transaction, and the insert fails exactly when it names a missing user |
| AuthService.AuthService.IssueTokenPair | app/services/auth_service.py:577-590 | a new live family whose stored hash is that of the refresh token handed out, signed for its user |
| AuthService.AuthService.CreateUserSession | app/services/session_service.py:15-37 | inserting and then pruning leaves the table that the top-k selection of `Sessions.Create` describes |
| AuthService.AuthService.EnforceConcurrentSessionLimit | app/services/session_service.py:78-92 | exactly the owner's rows past the newest `max_concurrent_sessions` go |
| AuthService.AuthService.RegisterUser | app/services/auth_service.py:59-110 | the committed outcome and answer of a registration are those of the specification, on every path |
| AuthService.AuthService.VerifyEmail | app/services/auth_service.py:113-150 | the same for an address verification; the failure row is committed before raising |
| AuthService.AuthService.ResendVerificationEmail | app/services/auth_service.py:153-178 | the same for a resend: only an unverified user's token is replaced and mailed |
| AuthService.AuthService.LoginUser | app/services/auth_service.py:181-267 | the same for a login, with the lockout consulted first, counted on failure and cleared on success |
| AuthService.AuthService.ForgotPassword | app/services/auth_service.py:270-298 | the same for a reset request of an active user |
| AuthService.AuthService.ResetPassword | app/services/auth_service.py:301-359 | the same for a reset: new hash, token spent, every family of the user revoked, or nothing but a failure row |
| AuthService.AuthService.VerifyMfaChallenge | app/services/auth_service.py:362-456 | the same for the exchange of a challenge |
| AuthService.AuthService.RefreshTokens | app/services/auth_service.py:459-574 | the same for a refresh; reuse commits its revocation although it raises |
| AuthService.AuthService.SetupMfa | app/services/mfa_service.py:12-42 | the same for MFA setup |
| AuthService.AuthService.VerifyMfaSetup | app/services/mfa_service.py:45-75 | the same for switching MFA on |
| AuthService.AuthService.DisableMfa | app/services/mfa_service.py:78-108 | the same for switching MFA off |
| AuthService.AuthService.DeleteUserSession | app/services/session_service.py:49-75 | the same for revoking one session of the caller |
| AuthService.AuthService.Serve | app/db/database.py:19-26 | one request leaves committed exactly what the specification's step says - its writes if it returns, only what it committed before raising otherwise - and nothing pending |
| AuthService.AuthService.ServeAll | app/db/database.py:19-26 | serving any list of requests is a run of the specification, transcript included |
| Transactions.RaisingCommitsOnlyAFailure | app/services/auth_service.py:113-574 | a request that raises leaves the tables as they were plus at most one failure row, except reuse, which also revokes that one family; it draws no id, signs and mails nothing, and only a login touches Redis |
| FamilyMoves.Classify | app/services/auth_service.py:459-590 | every request opens one family, turns one, catches reuse in one, cuts off one owner's, or leaves all families and refresh tokens alone |
| Families.RotationChain | app/services/auth_service.py:546-590 | in every run a family's exchanged tokens are all but the last of those it was issued, in order and once each, each unexpired when the next was issued; the stored hash is the last one's; rotations in the audit log equal exchanges |
| Families.ExchangesWithinLifetime | app/core/security.py:52-105 | consecutive exchanges of a family are less than the configured days apart |
| Families.AcceptedIff | app/services/auth_service.py:459-574 | in every run a refresh succeeds exactly for the last token issued to a live family with an active owner until the configured days, rounded down to a second, have passed since it was issued; every other one is answered 401 |
| Lifetimes.EveryTokenLives | app/core/security.py:32-92 | in every run each access, refresh and challenge token of an answer expires its configured minutes or days after that answer, less a fraction of a second |
| Families.RevokedForever | app/services/auth_service.py:524-544 | a revoked family stays revoked and none of its tokens is exchanged again, whatever follows |
| Families.ReuseIsFinal | app/services/auth_service.py:531-561 | presenting an older unexpired token of a live family raises, commits the revocation of that family and of no other, and no continuation accepts any token of it |
| Families.ResetCutOff | app/services/auth_service.py:343-349 | after a successful reset no continuation accepts a token of a family its user already had, every live family of the user was opened later, and other users' families are untouched |
| AuditTrail.EveryRequestTrails | app/services/audit_service.py:9-29 | in every run each request leaves at most one audit row; the request, its answer and whom it concerns determine whether, and with which event, user, family and time, and the row is a success exactly when the request was answered |
| AuditReplay.AuditLogReplays | app/services/auth_service.py:95-109 | in every run folding the audit log gives each user's MFA flag (switching on and off strictly alternate), verified flag and number of families, and a family is revoked iff a reuse row carries its id or its owner has a reset after it opened |
| Accounts.NoServerError | app/services/auth_service.py:407-417 | in every run users are unique by address and token, everything that names a user names an existing one, and no request ends in a database error |
| Accounts.TokensNameUsers | app/services/auth_service.py:509-517 | every signed token names an existing user, so the missing-user arms are never entered |
| Accounts.TokenColumnsAgree | app/services/auth_service.py:120-149 | in every run verified iff no verification token is stored, a reset token is stored iff its expiry is, and no look-up matches two users |
| Accounts.StoredPasswordsCompliant | app/services/auth_service.py:75-88 | every stored hash is of a password that meets each rule of the policy and has at most 72 UTF-8 bytes, and that password verifies |
| UserStates.RunUsers | app/services/auth_service.py:66-92 | in every run the users are exactly those that registrations were answered with, under the address registered, and each is active unless an administrator last said otherwise |
| UserStates.RequestsAndUsers | app/services/auth_service.py:59-359 | in every run no request removes a user or changes an address, only the administrator's change sets `active`, to the value asked for, only a taken token sets `verified`, and a new user is active and unverified |
| Passwords.LastAcceptedVerifies | app/core/security.py:14-28 | in every run exactly the last password that a registration or reset of the address accepted verifies |
| Passwords.LoginAnswer | app/services/auth_service.py:189-252 | in every run the answer to a login is 423 iff locked, else 401 iff the password is not the last accepted one for that address, else 403 iff the account is inactive, else a challenge for that user if MFA is on and a sign-in of that user if not |
| Passwords.RegisterAnswer | app/services/auth_service.py:66-88 | in every run a registration is answered 409 exactly when the address, in any case, has had a password accepted before; otherwise 422 exactly when the password breaks a rule, is in a reported breach or has more than 72 bytes; otherwise by signing in a new user |
| Passwords.RegistrationCreates | app/services/auth_service.py:77-92 | in every run an answered registration adds one active, unverified user with that password, mails the token that verifies it to the address, and changes no other user |
| TokenMail.RunMailed | app/services/auth_service.py:85-92 | in every run a stored one-time token is that of the last mail of its kind to its user, and a reset token expires thirty minutes after that mail |
| TokenMail.MailRequestsTellNothing | app/services/auth_service.py:153-178 | in every run asking for a reset or another verification mail is answered alike for every address, and a mail goes to that address exactly when it belongs to an active, or to an unverified, user |
| OneTimeTokens.VerificationWorksIff | app/services/auth_service.py:120-150 | a verification token works exactly when it is the latest mailed to some user and unused, and it turns that user from unverified to verified; any other is answered 400 |
| OneTimeTokens.ResetAnswer | app/services/auth_service.py:309-358 | a reset is refused with 400 exactly when its token is not the latest mailed to any user, was used, or is over thirty minutes old; otherwise with 422 exactly when the password breaks a rule for that user, is in a reported breach or has more than 72 bytes |
| OneTimeTokens.WorksOnce | app/services/auth_service.py:336-343 | once a mailed token has worked, every later request with it raises, as long as requests do not overlap; `SingleUse.SingleUseIff` covers the same tokens when they do |
| OneTimeTokens.RejectedPasswordChangesNothing | app/services/auth_service.py:333-341 | a reset that the policy turns down leaves the world as it was, so its token stays usable |
| MfaGate.MfaGateProvenance | app/services/auth_service.py:370-441 | in every run a family opened for a user with MFA enabled came from exchanging a challenge with a code valid for the stored secret, and the challenge answered an earlier correct-password login of that user less than its lifetime ago |
| MfaGate.EveryChallengeEarned | app/services/auth_service.py:238-252 | every signed challenge was the answer to some login of that user with the right password |
| MfaGate.ExchangeSucceedsIff | app/services/auth_service.py:370-456 | in every run a challenge exchange succeeds exactly when an earlier correct-password login was answered with that challenge, the configured minutes, rounded down to a second, have not passed since, its user is active with MFA still on, and the code is valid; the refusal is 400 for the last two and 401 for the others |
| MfaGate.OpeningPassedGate | app/services/auth_service.py:238-252 | no call but the challenge exchange opens a family for a user with MFA enabled |
| MfaGate.FlagNeedsCode | app/services/mfa_service.py:45-108 | the flag of a user changes exactly when that signed-in user sends a code valid for the stored secret to the call that switches it |
| MfaGate.SecretNeverChanges | app/services/mfa_service.py:12-42 | setup, disabling and setup again never change a user's secret |
| MfaBooks.RunBooked | app/services/mfa_service.py:12-108 | in every run a user has a secret exactly when a setup was answered with it, and MFA is on exactly when the last answered switch turned it on |
| MfaBooks.SetupAnswer | app/services/mfa_service.py:12-42 | in every run a setup is answered 409 exactly while MFA is on; otherwise it hands out, and leaves stored and off, the secret of the user's earlier setups, or one that nobody was handed before |
| MfaBooks.VerifyAnswer | app/services/mfa_service.py:45-75 | in every run: 404 before any setup, on when it is on or the code is valid for the secret handed out, 400 otherwise, with the stored configuration afterwards |
| MfaBooks.DisableAnswer | app/services/mfa_service.py:78-108 | in every run: 404 before any setup, off when it is off or the code is valid for the secret handed out, 400 otherwise, with the stored configuration afterwards |
| Callers.LetInIff | app/core/dependencies.py:21-71 | in every run a token lets its bearer in as its subject exactly when a sign-in or rotation handed it to that user as an access token, the configured minutes, rounded down to a second, have not passed since, and the user is active; an inactive user gets 400, any other bearer 401 |
| Callers.TurnedAway | app/core/dependencies.py:21-71 | a bearer who is not let in is turned away from the MFA and session calls with that status, and nothing changes |
| RefreshRace.SerialSchedulesAreAtomic | app/services/auth_service.py:524-574 | schedules in which each read is followed at once by its write are exactly the atomic runs |
| RaceSafety.PlaySound | app/services/auth_service.py:524-590 | under every schedule signed and pending refresh tokens belong to known families and owners, pending ones are distinct, and no refresh token is handed out twice |
| RaceSafety.RevocationIsFinal | app/services/auth_service.py:546-561 | under every schedule `is_revoked` never returns to false and families keep their owners |
| RaceSafety.RevokedFamilyUnusable | app/services/auth_service.py:524-544 | once a family is revoked every later read of any of its tokens is refused, also of one issued by a rotation then in flight |
| RaceSafety.OverwrittenNeverAccepted | app/services/auth_service.py:546-561 | an overwritten token is accepted by no later read, and a read of it while unexpired, of a live family with an active owner, decides to revoke |
| RaceSafety.RevokeJobRevokes | app/services/auth_service.py:547-561 | a decided revocation revokes the family whatever happened since its read |
| RaceSafety.ResetWriteRevokesAll | app/services/auth_service.py:343-349 | a reset's write revokes every family its user has by then, and no later read of their tokens is accepted, under any schedule |
| RaceSafety.TwoRotations | app/services/auth_service.py:563-574 | if two rotations of one token both commit, their tokens differ and at least one of them is overwritten |
| SingleUse.SingleUseIff | app/services/auth_service.py:120-149 | after every schedule, letting the pending writes happen, in any order and with any pauses, leaves a refresh, reset or verification token accepted twice exactly when some request decided to use it while another use of it was in flight; such writes always exist |
| SingleUse.StartedIff | app/services/auth_service.py:524-574 | under every schedule, more than one use of a token has been answered or is in flight exactly when two uses of it overlapped |
| SingleUse.WritesUseUp | app/services/auth_service.py:563-574 | from any state, letting the pending uses of a token happen in any order and with any pauses adds exactly that many accepted uses |
| SingleUse.GuardIff | app/services/auth_service.py:524-574 | while no uses of a token have overlapped, a request that decides to use it makes two accepted uses possible exactly when another use of it is in flight |
| SingleUse.OneAtATime | app/services/auth_service.py:309-358 | a token never presented while a use of it is in flight is accepted at most once, under every schedule of everything else |
| SingleUse.PlayGone | app/services/auth_service.py:343-349 | under every schedule a token that has been accepted is overwritten or stored by nobody, so no later read takes it |
| OverlapExamples.RefreshUsedTwice | app/services/auth_service.py:524-574 | from an empty database, after one registration two overlapping refreshes with its token are both answered with a new one |
| OverlapExamples.ResetUsedTwice | app/services/auth_service.py:309-358 | from an empty database, two overlapping resets with one mailed token both succeed |
| OverlapExamples.VerificationUsedTwice | app/services/auth_service.py:120-149 | from an empty database, two overlapping verifications with one mailed token both succeed |
| TokenColumns.HandleColumn | app/services/auth_service.py:85-178 | every request stores only one-time tokens that it draws, each for one user, or keeps or drops what was stored |
| RaceSafety.SingleUseFails | app/services/auth_service.py:524-574 | from any state where two overlapping requests can read a token as current, both are answered with a new token, and the first of these is overwritten at once |
| LockoutKeys.DerivedKeyIsLockKeyIff | app/services/bruteforce_service.py:25-29 | a failure sets the key that the check reads exactly when the subject contains no "failed" |
| LockoutKeys.KeyNamesInjective | app/services/bruteforce_service.py:41-54 | the four key families are pairwise disjoint and injective in the subject |
| LockoutKeys.ReplacedNeverContains | app/services/bruteforce_service.py:25-29 | no derived key names a subject containing "failed" |
| Lockout.CheckLoginLockout | app/services/bruteforce_service.py:7-14 | refuses exactly when a lock of the account or the address is live |
| Lockout.RecordFailedLogin | app/services/bruteforce_service.py:17-29 | the key space afterwards: each counter bumped in its window, each lock set that reached the maximum |
| LockoutExact.RunExact | app/services/bruteforce_service.py:17-38 | over every schedule the counter and the lock of a subject without "failed" are the function of the times of its own failures since its last success that fixed windows of the configured seconds define; with "lockout" the lock lasts at least that long |
| LoginLock.LockedExactly | app/services/auth_service.py:189-238 | in every run a login is answered 423 exactly while the wrong passwords of its account, or of its address, since their last success lock, told from the 401 answers and their times, if neither contains "failed" or "lockout" |
| LoginLock.LockedAtLeast | app/services/auth_service.py:189-220 | in every run the wrong passwords of an account without "failed" that lock it make every login of it answer 423 |
| LoginLock.EnoughWrongPasswordsLock | app/services/bruteforce_service.py:7-29 | in every run, once the maximum of 401 answers for an account without "failed" fell within the configured seconds, none in the same span before, every login of it is answered 423 until that span has passed since the last of them, and not later on its account |
| LoginLock.TooFewDoNotLock | app/services/bruteforce_service.py:17-29 | in every run fewer 401 answers than the maximum since the last success refuse no login of the account |
| LoginLock.SuccessClears | app/services/bruteforce_service.py:32-38 | in every run a login that is answered leaves its account and its address without counter and without lock |
| LockoutRate.LockoutInvariant | app/services/bruteforce_service.py:17-38 | over every schedule a live counter is at most the maximum, at the maximum the lock is live, and a lock never expires before its counter, for subjects without "failed" |
| LockoutRate.LiftedLockIsFreshBudget | app/services/bruteforce_service.py:17-29 | once a lock has lifted, its counter counts from zero |
| LockoutRate.RateBound | app/services/bruteforce_service.py:7-29 | with no clearing login, a half-open span of n times the configured seconds admits at most max_failed_attempts times n + 1 failed checks of an account, for every schedule and mix of addresses |
| LockoutRate.BurstLocks | app/services/bruteforce_service.py:17-29 | a burst of wrong passwords for one account without "failed", on an empty key space, locks it at the maximum and not before |
| LockoutRate.ContainingFailedNeverLocks | app/services/bruteforce_service.py:25-29 | no schedule ever sets the lock of a subject containing "failed" |
| LockoutRate.LockableIff | app/services/bruteforce_service.py:7-29 | some schedule, in order and over by then, locks an account exactly when its address contains no "failed" |
| LockoutIsolation.DerivedFromOthersIff | app/services/bruteforce_service.py:25-29 | the lock of a subject is derived from another subject's counter exactly when it contains "lockout" and no "failed" |
| LockoutIsolation.LockTakesOwnFailures | app/services/bruteforce_service.py:17-29 | over every schedule, a lock of an account with neither word has taken the maximum of its own failures |
| LockoutIsolation.LockedByOthersIff | app/services/bruteforce_service.py:17-54 | some schedule, in order and over by then, with fewer failures of an account than the maximum, indeed with none, leaves it locked exactly when its address contains "lockout" and no "failed" |
| LockoutIsolation.FailedLocksLockout | app/services/bruteforce_service.py:17-54 | the maximum of wrong passwords for failed@example.org locks lockout@example.org and not itself |
| LockoutIsolation.BurstUnstopped | app/services/bruteforce_service.py:17-29 | any number of wrong passwords for an address with "failed" are all checked, and at the maximum lock the account with "lockout" in its place |
| LockoutIsolation.RateBoundIff | app/services/bruteforce_service.py:7-29 | over spans of any positive length the rate bound holds for every schedule exactly when the address contains no "failed" |
| LockoutRuns.LockableInRunsIff | app/services/auth_service.py:189-220 | some run of the service, with requests a microsecond or more apart, ends with an account locked exactly when its address contains no "failed" and the maximum of failures fits in one window |
| LockoutRuns.LockedByOthersInRunsIff | app/services/auth_service.py:189-220 | some run ends with an account locked although fewer 401 answers than the maximum were given for it, indeed none, exactly when its address contains "lockout" and no "failed" and the maximum fits in one window |
| LockoutRuns.TooManyToLock | app/services/bruteforce_service.py:17-29 | with attempts a microsecond or more apart, a maximum above the microseconds of a window means that no lock is ever set |
| LoginRate.LoginIsAttempt | app/services/auth_service.py:189-238 | a login gates and updates the counters as one attempt, and its status tells the verdict: 423, 401 or past the gate |
| LoginRate.WrongPasswordRate | app/services/auth_service.py:189-220 | the rate bound on whole runs, counted on the 401 answers that clients saw, from any reachable state |
| LoginRate.ReachableSound | app/services/auth_service.py:189-238 | the lockout invariant holds in every reachable state of the whole service |
| Sessions.NewestFirst | app/services/session_service.py:78-92 | the query lists exactly the given rows, newest first |
| Sessions.OverflowIsRank | app/services/session_service.py:78-92 | a session is pruned iff at least the cap of its owner's sessions are newer |
| Sessions.CreateKeepsNewest | app/services/session_service.py:15-37 | after a create the owner has exactly the newest min(n + 1, cap) sessions including the new one, and other users' sessions are as they were |
| SessionCap.SessionBooks | app/services/session_service.py:15-92 | in every run of the service live, pruned and revoked sessions partition those that ever appeared in the table, the cap holds, and every pruned session is older than its owner's live ones |
| SessionCap.NeverOverCap | app/services/session_service.py:78-92 | in every run of the whole service no user has more sessions than the cap |
| SessionCap.RequestsAndSessions | app/services/session_service.py:15-75 | in every run a sign-in adds one session and keeps its user's newest, a revocation removes one of the caller's own, and nothing else touches a session; the new session expires after the configured days |
| SessionCap.RevokeAnswer | app/services/session_service.py:49-75 | in every run a caller's own stored session is always revoked, and any other id is answered 404 and changes nothing |
| PasswordPolicy.ValidatePasswordStrength | app/core/password_policy.py:26-56 | complaints come in the order of the rules, each exactly when its rule is broken in plain terms: under twelve characters, every character outside 'a' to 'z', and so on, on the list of common passwords, the non-empty local part of the address somewhere in it |
| PasswordPolicy.AcceptableIff | app/core/security.py:14-28 | a new password is taken exactly when it meets the written rules, no breach is reported, and its UTF-8 encoding has at most 72 bytes |
| PasswordPolicy.CommonIsTooShort | app/core/password_policy.py:8-56 | a password on the common list always breaks the length rule too |
| RbacService.RbacService.CreateRole | app/services/rbac_service.py:12-35 | the committed outcome of creating a role is that of the specification, audit row and conflicts included |
| RbacService.RbacService.CreatePermission | app/services/rbac_service.py:38-73 | the same for a permission |
| RbacService.RbacService.AssignPermissionToRole | app/services/rbac_service.py:76-108 | the same for putting a permission in a role; an existing edge returns with nothing written |
| RbacService.RbacService.AssignRoleToUser | app/services/rbac_service.py:111-142 | the same for giving a role to a user |
| RbacClosure.RunLogged | app/services/rbac_service.py:12-142 | in every run the permission and edge tables hold exactly what requests were answered with, names are lower case and unique, and edges end in existing rows |
| RbacClosure.CheckIsPath | app/services/rbac_service.py:145-164 | in every run a check succeeds iff the user is a superuser or answered requests made a permission of that name up to case, put it in a role, and gave the user that role; otherwise 401 for an unknown user and 403 for a known one |
| RbacAnswers.RequestsAndSuperusers | app/core/dependencies.py:84-97 | in every run no service call changes who is a superuser, and a new user is none |
| RbacAnswers.RoleAnswer | app/services/rbac_service.py:12-35 | in every run a role is created, with a new id and its name in lower case, unless one of that name in any case was created before (409) or the acting user does not exist (500); the one audit row says so |
| RbacAnswers.PermissionAnswer | app/services/rbac_service.py:38-73 | the same for a permission with its resource and action |
| RbacAnswers.LinkAnswer | app/services/rbac_service.py:76-108 | in every run 404 unless both were created; an assignment answered before is answered again without a change; otherwise the edge and its audit row are added, unless the acting user does not exist (500) |
| RbacAnswers.GrantAnswer | app/services/rbac_service.py:111-142 | the same for a role given to a user |
| RbacClosure.GrantedForever | app/services/rbac_service.py:145-164 | what a non-superuser may do stays allowed in every continuation |
| RbacClosure.RepeatedAssignmentAddsNothing | app/services/rbac_service.py:86-94 | repeating an assignment, at any later time and by any actor, returns and changes nothing |
| RbacClosure.NamesAreTaken | app/services/rbac_service.py:19-24 | once a name was given to a role or a permission, creating another with it in any case is a conflict and changes nothing |
| RbacClosure.AuditReplaysTables | app/services/rbac_service.py:96-142 | in every run the audit rows replay to exactly the role, permission and edge tables, and every row records a real change |
| Base32.DecodeBase32 | docs/demo/script.js:199-222 | for every string, with a 32-bit accumulator that is never masked: fails iff a cleaned character is outside the alphabet, else gives floor(5n/8) bytes whose number, shifted by the left-over bits, is the number of the input less what is left over; the input is read as typed, with its blanks, case and final padding, and any encoding of a byte string gives that string back |
| Base32Text.SpelledIff | docs/demo/script.js:200-209 | a text decodes exactly when, up to final padding and with blanks of any kind anywhere, each character is a letter of the alphabet, in either case, or one that JavaScript upper-cases to such letters |
| Base32.DecodeCleaned | docs/demo/script.js:202-219 | the decoding loop, with that equation kept at every character |
| Base32.TruncationHarmless | docs/demo/script.js:211-217 | truncating the accumulator to 32 bits never changes an emitted byte |
| Base32.DecodeInvertsEncode | docs/demo/script.js:199-222 | decoding inverts the encoding of section 6 of RFC 4648, for every byte string, in either case, with or without padding, and with blanks, tabs and line ends anywhere |
| Totp.SetUint32 | docs/demo/script.js:227-229 | stores the big-endian bytes of the number modulo 2^32 and nothing else |
| Totp.CounterBlock | docs/demo/script.js:226-229 | the buffer handed to HMAC for a clock reading: the number of whole thirty-second steps |
| Totp.CounterBytesCorrect | docs/demo/script.js:226-229 | the buffer is the eight-byte big-endian counter of section 5.1 of RFC 4226 exactly for time steps below 2^32 |
| Totp.BinaryCorrect | docs/demo/script.js:239-244 | for every 20-byte digest the shifted expression is the 31-bit big-endian number at the dynamic offset, in bounds and without reaching the sign bit |
| Totp.CodeCorrect | docs/demo/script.js:239-246 | the code is always six digits and spells that number modulo 10^6, as section 5.3 of RFC 4226 defines it |

## Left out

- Passwords.LoginAnswer: compares addresses lower-cased in ASCII; Unicode case folding is not modelled.
- PasswordPolicy.ValidatePasswordStrength: takes digits and lower-casing to be those of ASCII; Python's also know other scripts' digits and letters.
- Logins that overlap a lock, and a Redis failure between INCR and EXPIRE: each lockout call is one step.
- In the interleaved model only refreshes, resets and verifications are split; every other request is one step, and races on unique addresses or names are not modelled.
- HTTP routing, request schemas, CORS, SlowAPI limits, Celery and SMTP delivery, Sentry, migrations and deployment.
- The HaveIBeenPwned request and its fail-open or fail-closed setting: an arbitrary verdict.
- The insides of bcrypt, SHA-256, HMAC, JWT signatures and pyotp, and undecodable or malformed identifier claims.
- List and pagination queries, device fingerprints, user agents, addresses in audit rows, message texts and descriptions of roles: carried data that no property depends on.
- Who may call the role and permission services: that is the superuser check of the admin routes.
- The rest of the demo page.
- Challenge tokens are not single use, deleting a session does not touch token families, session expiry is never enforced, and access and challenge tokens outlive a reset: the code promises none of these and nothing here claims them.
