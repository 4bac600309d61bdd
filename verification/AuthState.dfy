/**
 The state of the authentication service: the rows of the PostgreSQL tables, the Redis key space,
 the mail outbox, the tokens signed so far and the clock (the models under app/models).

 Identifiers, secrets and one-time tokens all come from one counter, which is what "uuid4 and
 token_urlsafe values are fresh" means here. SHA-256 and bcrypt are injective constructors.
 */
module AuthState {
  import opened Prelude
  import opened Text
  import opened PasswordPolicy
  import opened Lockout
  import opened Sessions

  type Uuid = nat

  datatype Digest<+T> = Sha256(preimage: T)

  datatype Kind = AccessToken | RefreshToken | ChallengeToken

  /** The payload of a signed token. `exp` is in whole seconds, as PyJWT writes it. */
  datatype Claims = Claims(kind: Kind, sub: Option<Uuid>, family: Option<Uuid>, exp: int, jti: Option<Uuid>)

  datatype User = User(
    email: string,
    password: PasswordHash,
    active: bool,
    verified: bool,
    verification: Option<Digest<Uuid>>,
    reset: Option<Digest<Uuid>>,
    resetExpires: Option<Time>)

  datatype Family = Family(owner: Uuid, revoked: bool, last: Digest<Claims>, createdAt: Time)

  datatype MfaConfig = MfaConfig(secret: Uuid, enabled: bool)

  datatype EventType =
    | Registered | VerificationFailure | VerificationSuccess | VerificationResent
    | LoginLocked | LoginFailure | LoginInactive | LoginSuccess
    | ResetRequested | ResetFailure | ResetSuccess
    | ChallengeIssued | ChallengeFailure | ChallengeSuccess
    | RefreshFailure | RefreshReuse | RefreshSuccess
    | MfaSetupStarted | MfaVerifyFailure | MfaEnabled | MfaDisableFailure | MfaDisabled
    | SessionRevoked

  datatype AuditRow = AuditRow(event: EventType, user: Option<Uuid>, family: Option<Uuid>, success: bool,
          createdAt: Time)

  datatype Db = Db(
    users: map<Uuid, User>,
    families: map<Uuid, Family>,
    mfa: map<Uuid, MfaConfig>,
    sessions: Table,
    audit: seq<AuditRow>)
  {
    function Log(row: AuditRow): Db {
      this.(audit := audit + [row])
    }
  }

  datatype MailKind = VerifyMail | ResetMail

  /** The stored one-time token of a kind. */
  function Stored(user: User, kind: MailKind): Option<Digest<Uuid>> {
    match kind
    case VerifyMail => user.verification
    case ResetMail => user.reset
  }

  datatype Mail = Mail(kind: MailKind, email: string, token: Uuid, at: Time)

  datatype World = World(
    db: Db,
    redis: Store,
    mail: seq<Mail>,
    minted: set<Claims>,
    nextId: Uuid,
    clock: Time)

  const EMPTY_DB: Db := Db(map[], map[], map[], map[], [])

  const START: World := World(EMPTY_DB, map[], [], {}, 0, 0)

  /** app/core/config.py:27-63; `totp` is pyotp's verdict on a secret and a code at an instant. */
  datatype Settings = Settings(
    accessMinutes: Positive,
    refreshDays: Positive,
    challengeMinutes: Positive,
    sessionDays: Positive,
    maxSessions: Positive,
    limits: Limits,
    totp: (Uuid, string, Time) -> bool)
  {
    function Lifetime(kind: Kind): (seconds: int)
      ensures 0 < seconds
    {
      match kind
      case AccessToken => accessMinutes * 60
      case RefreshToken => refreshDays * 86400
      case ChallengeToken => challengeMinutes * 60
    }
  }

  const RESET_LIFETIME: int := 30 * MINUTE

  /** `exp` is the expiry rounded down to a second. */
  function Expiry(now: Time, seconds: int): int {
    (now + seconds * SECOND) / SECOND
  }

  predicate Unexpired(token: Claims, now: Time) {
    now < token.exp * SECOND
  }

  /** A token lives until its lifetime, rounded down to a second, has passed since it was issued. */
  lemma UnexpiredIff(issued: Time, seconds: int, token: Claims, now: Time)
    requires token.exp == Expiry(issued, seconds)
    ensures Unexpired(token, now) <==> now < (issued + seconds * 1_000_000) / 1_000_000 * 1_000_000
    ensures issued + seconds * 1_000_000 - 1_000_000 < token.exp * 1_000_000 <= issued + seconds * 1_000_000
  {
  }

  lemma ExpiryBound(issued: Time, seconds: int, token: Claims, now: Time)
    requires token.exp == Expiry(issued, seconds) && Unexpired(token, now)
    ensures now < issued + seconds * SECOND
  {
  }

  /** `decode_token`: only signed tokens decode, and only before they expire. */
  predicate Decodes(w: World, token: Claims) {
    token in w.minted && Unexpired(token, w.clock)
  }

  // ---- Queries ----

  datatype Lookup = NoRow | OneRow(id: Uuid) | ManyRows

  /** `scalar_one_or_none()` over the ids that match; more than one is an error. */
  function ScalarOneOrNone(ids: set<Uuid>): (r: Lookup)
    ensures r == NoRow <==> ids == {}
    ensures r.OneRow? ==> ids == {r.id}
    ensures forall id :: ids == {id} ==> r == OneRow(id)
  {
    if ids == {} then NoRow
    else if exists id :: id in ids && ids == {id} then
      var id :| id in ids && ids == {id};
      OneRow(id)
    else ManyRows
  }

  function ByEmail(db: Db, email: string): (r: Lookup)
    ensures r.OneRow? ==> r.id in db.users && db.users[r.id].email == Lower(email)
    ensures r.NoRow? ==> forall u | u in db.users :: db.users[u].email != Lower(email)
  {
    var ids := set u | u in db.users && db.users[u].email == Lower(email);
    assert forall u | u in db.users && db.users[u].email == Lower(email) :: u in ids;
    ScalarOneOrNone(ids)
  }

  function ByVerification(db: Db, token: Uuid): (r: Lookup)
    ensures r.OneRow? ==> r.id in db.users && db.users[r.id].verification == Some(Sha256(token))
  {
    ScalarOneOrNone(set u | u in db.users && db.users[u].verification == Some(Sha256(token)))
  }

  function ByReset(db: Db, token: Uuid): (r: Lookup)
    ensures r.OneRow? ==> r.id in db.users && db.users[r.id].reset == Some(Sha256(token))
  {
    ScalarOneOrNone(set u | u in db.users && db.users[u].reset == Some(Sha256(token)))
  }

  predicate MfaIsEnabled(db: Db, user: Uuid) {
    user in db.mfa && db.mfa[user].enabled
  }

  // ---- Requests and replies ----

  datatype Request =
    | RegisterUser(email: string, password: string, breached: bool)
    | VerifyEmail(mailed: Uuid)
    | ResendVerification(email: string)
    | LoginUser(email: string, password: string, ip: Option<string>)
    | ForgotPassword(email: string)
    | ResetPassword(mailed: Uuid, password: string, breached: bool)
    | VerifyMfaChallenge(token: Claims, code: string)
    | RefreshTokens(token: Claims)
    | SetupMfa(token: Claims)
    | VerifyMfaSetup(token: Claims, code: string)
    | DisableMfa(token: Claims, code: string)
    | DeleteSession(token: Claims, session: Uuid)
    | SetActive(user: Uuid, active: bool)  // an administrator's change, outside the services

  datatype Body =
    | SignedIn(user: Uuid, access: Claims, refresh: Claims)
    | MfaRequired(challenge: Claims)
    | Rotated(access: Claims, refresh: Claims)
    | MfaSecret(secret: Uuid, enabled: bool)
    | MfaStatus(enabled: bool)
    | Done

  /** What a request ends with: an HTTP error (500 for an uncaught database error) or a body. */
  datatype Reply = Raised(status: nat) | Returned(body: Body)

  const SERVER_ERROR: nat := 500

  datatype Result = Result(world: World, reply: Reply)
}
