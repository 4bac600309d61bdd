/**
 How long the tokens of an answer live (app/core/security.py:32-92): every token, in every run, from the
 microsecond in which it is handed out for its lifetime, less the fraction of a second that `exp` drops.
 */
module Lifetimes {
  import opened Prelude
  import opened Text
  import opened PasswordPolicy
  import opened Sessions
  import opened AuthState
  import opened AuthSpec
  import Lockout

  /** Issued at `at`, the token lives for `seconds`, rounded down to a whole second of the clock. */
  ghost predicate LivesFor(token: Claims, at: Time, seconds: int) {
    at + seconds * 1_000_000 - 1_000_000 < token.exp * 1_000_000 <= at + seconds * 1_000_000
  }

  /** The tokens of an answer given at `at`. */
  ghost predicate TokensLive(cfg: Settings, at: Time, reply: Reply) {
    match reply
    case Returned(SignedIn(_, access, refresh)) =>
      LivesFor(access, at, cfg.accessMinutes * 60) && LivesFor(refresh, at, cfg.refreshDays * 86400)
    case Returned(Rotated(access, refresh)) =>
      LivesFor(access, at, cfg.accessMinutes * 60) && LivesFor(refresh, at, cfg.refreshDays * 86400)
    case Returned(MfaRequired(challenge)) => LivesFor(challenge, at, cfg.challengeMinutes * 60)
    case _ => true
  }

  lemma SignInLives(cfg: Settings, w: World, u: Uuid, event: EventType)
    ensures TokensLive(cfg, w.clock, SignIn(cfg, w, u, event).reply)
  {
    hide Create;
  }

  lemma LoginLives(cfg: Settings, w: World, email: string, password: string, ip: Option<string>)
    ensures TokensLive(cfg, w.clock, Login(cfg, w, email, password, ip).reply)
  {
    hide SignIn;
    hide Refuse;
    hide ByEmail;
    hide VerifyPassword;
    hide Lockout.Locked;
    hide Lockout.Record;
    hide Lockout.Clear;
    if ByEmail(w.db, email).OneRow? {
      SignInLives(cfg, w.(redis := Lockout.Clear(w.redis, email, ip)), ByEmail(w.db, email).id, LoginSuccess);
    }
  }

  lemma StepLives(cfg: Settings, w: World, req: Request)
    ensures TokensLive(cfg, w.clock, Handle(cfg, w, req).reply)
  {
    hide SignIn;
    hide Refuse;
    hide ByEmail;
    hide ByVerification;
    hide ByReset;
    hide Acceptable;
    hide CurrentActiveUser;
    hide RevokeFamiliesOf;
    match req
    case RegisterUser(email, password, _) =>
      SignInLives(cfg, WithNewUser(w, Lower(email), password), w.nextId, Registered);
    case LoginUser(email, password, ip) =>
      LoginLives(cfg, w, email, password, ip);
      hide Login;
    case VerifyMfaChallenge(token, _) =>
      if token.sub.Some? {
        SignInLives(cfg, w, token.sub.value, ChallengeSuccess);
      }
    case _ =>
  }

  /** In every run every answer's tokens live for their lifetimes. */
  lemma {:induction false} EveryTokenLives(cfg: Settings, events: seq<Event>)
    ensures forall x | x in Run(cfg, BOOT, events).log :: TokensLive(cfg, x.at, x.reply)
  {
    hide Handle;
    hide TokensLive;
    if events != [] {
      var before, e := events[..|events| - 1], events[|events| - 1];
      EveryTokenLives(cfg, before);
      StepLives(cfg, Tick(Run(cfg, BOOT, before).world, e.delay), e.request);
    }
  }
}
