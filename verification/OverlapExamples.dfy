/**
 Reachable schedules in which a token meant for one use is accepted twice
 (app/services/auth_service.py:120-149, 309-358 and 524-574): two overlapping refreshes, two overlapping resets
 and two overlapping verifications.
 */
module OverlapExamples {
  import opened Prelude
  import opened Text
  import opened PasswordPolicy
  import opened Sessions
  import opened AuthState
  import opened AuthSpec
  import opened RefreshRace
  import opened RaceSafety
  import opened SingleUse

  const ADDRESS: string := "ada@example.org"
  const PASSWORD: string := "Correct-Horse-7"

  lemma {:induction false} AsciiLength(s: string)
    requires forall i | 0 <= i < |s| :: s[i] as int < 0x80
    ensures Utf8Length(s) == |s|
  {
    if s != [] {
      AsciiLength(s[..|s| - 1]);
    }
  }

  lemma OccurrenceStarts(pat: string, s: string, i: int)
    requires pat != [] && OccursAt(pat, s, i)
    ensures pat[0] in s
  {
    assert s[i] == s[i..i + |pat|][0];
  }

  lemma NotOccurring(pat: string, s: string)
    requires pat != [] && pat[0] !in s
    ensures !Occurs(pat, s)
  {
    hide OccursAt;
    if Occurs(pat, s) {
      var i :| 0 <= i <= |s| && OccursAt(pat, s, i);
      OccurrenceStarts(pat, s, i);
    }
  }

  lemma LocalPartAda()
    ensures Lower(ADDRESS) == ADDRESS && Lower(LocalPart(ADDRESS)) == "ada"
  {
    assert ADDRESS == "ada" + "@example.org";
    assert LocalPart("@example.org") == [];
    assert ADDRESS[1..] == "da@example.org" && ADDRESS[1..][1..] == "a@example.org";
    assert ADDRESS[1..][1..][1..] == "@example.org";
    assert LocalPart(ADDRESS[1..][1..]) == "a";
    assert LocalPart(ADDRESS[1..]) == "da";
    assert LocalPart(ADDRESS) == "ada";
  }

  lemma HasEveryClass()
    ensures forall cls: CharClass :: HasOne(PASSWORD, cls)
  {
    assert PASSWORD[0] == 'C' && PASSWORD[1] == 'o' && PASSWORD[7] == '-' && PASSWORD[14] == '7';
    assert InClass('C', Uppercase) && InClass('o', Lowercase) && InClass('-', Symbol) && InClass('7', Number);
    forall cls: CharClass ensures HasOne(PASSWORD, cls) {
      match cls
      case Lowercase =>
      case Uppercase =>
      case Number =>
      case Symbol =>
    }
  }

  lemma NamesNobody()
    ensures !NamesUser(Lower(PASSWORD), ADDRESS)
  {
    hide Occurs;
    LocalPartAda();
    var normalized := Lower(PASSWORD);
    assert 'a' !in normalized;
    NotOccurring("ada", normalized);
  }

  lemma FitsBcrypt()
    ensures HashPassword(PASSWORD).Some? && |PASSWORD| >= MIN_PASSWORD_LENGTH
  {
    AsciiLength(PASSWORD);
  }

  /** The policy takes the password for the address. */
  lemma PasswordAcceptable()
    ensures Acceptable(PASSWORD, Lower(ADDRESS), false)
  {
    hide Lower;
    hide Occurs;
    hide HasOne;
    hide NamesUser;
    hide HashPassword;
    LocalPartAda();
    HasEveryClass();
    NamesNobody();
    FitsBcrypt();
    if Broken(TooCommon, PASSWORD, ADDRESS) {
      CommonIsTooShort(PASSWORD, ADDRESS);
    }
  }

  // ---- After one registration ----
  // It draws five values: the user 0, its verification token 1, the family 2, its token 3 and the session 4.

  const ADA: User := User(ADDRESS, Bcrypt(PASSWORD), true, false, Some(Sha256(1)), None, None)

  const REGISTERING: Event := Event(0, RegisterUser(ADDRESS, PASSWORD, false))

  lemma Registered(cfg: Settings)
    ensures var r := Step(cfg, START, REGISTERING);
            var token := RefreshFor(cfg, 1, 0, 2, 3);
            && r.reply.Returned? && r.world.clock == 1 && r.world.nextId == 5 && token in r.world.minted
            && r.world.db.families == map[2 := AuthState.Family(0, false, Sha256(token), 1)]
            && r.world.db.users == map[0 := ADA]
  {
    hide Create;
    hide Acceptable;
    hide Lower;
    hide ByEmail;
    LocalPartAda();
    PasswordAcceptable();
    NobodyYet();
  }

  lemma NobodyYet()
    ensures ByEmail(EMPTY_DB, ADDRESS) == NoRow
  {
    assert (set u | u in EMPTY_DB.users && EMPTY_DB.users[u].email == Lower(ADDRESS)) == {};
  }

  /** The refresh token that the registration hands out. */
  function FirstRefresh(cfg: Settings): Claims {
    RefreshFor(cfg, 1, 0, 2, 3)
  }

  /** Two overlapping refreshes with the token of a registration are both answered with a new token. */
  lemma RefreshUsedTwice(cfg: Settings)
    ensures var token := FirstRefresh(cfg);
            Uses(Play(cfg, IDLE, [Whole(REGISTERING)] + Overlap(0, 1, token)).log, RefreshSecret(token)) >= 2
  {
    hide Next;
    hide Play;
    var token := FirstRefresh(cfg);
    var r := Play(cfg, IDLE, [Whole(REGISTERING)]);
    PlayTwo(cfg, IDLE, Whole(REGISTERING), Whole(REGISTERING));
    AfterRegistering(cfg);
    IdleSound();
    PlaySound(cfg, IDLE, [Whole(REGISTERING)]);
    SingleUseFails(cfg, r, 0, 1, token);
    PlayConcat(cfg, IDLE, [Whole(REGISTERING)], Overlap(0, 1, token));
    UsesTwice(Play(cfg, r, Overlap(0, 1, token)).log, RefreshSecret(token));
  }

  lemma AfterRegistering(cfg: Settings)
    ensures var r := Next(cfg, IDLE, Whole(REGISTERING));
            var token := FirstRefresh(cfg);
            && r.jobs == map[] && |r.log| == 1
            && DecideRefresh(cfg, Tick(r.world, 0), token).Later?
            && DecideRefresh(cfg, Tick(r.world, 0), token).job.RotateJob?
            && Unexpired(token, r.world.clock + 2)
  {
    hide Step;
    hide Refuse;
    Registered(cfg);
  }

  // ---- Two resets ----
  // The reset token that is mailed next is 5.

  const ASKING: Event := Event(0, ForgotPassword(ADDRESS))

  const ASKED: User := ADA.(reset := Some(Sha256(5)), resetExpires := Some(2 + RESET_LIFETIME))

  lemma Asked(cfg: Settings, w: World)
    requires w.db.users == map[0 := ADA] && w.clock == 1 && w.nextId == 5
    ensures var r := Step(cfg, w, ASKING);
            r.reply.Returned? && r.world.clock == 2 && r.world.nextId == 6 && r.world.db.users == map[0 := ASKED]
  {
    hide ByEmail;
    hide Lower;
    LocalPartAda();
    FoundByEmail(w, ADA);
    assert ByEmail(Tick(w, 0).db, ADDRESS) == OneRow(0);
  }

  lemma FoundByEmail(w: World, user: User)
    requires w.db.users == map[0 := user] && user.email == Lower(ADDRESS)
    ensures ByEmail(w.db, ADDRESS) == OneRow(0)
  {
    assert (set u | u in w.db.users && w.db.users[u].email == Lower(ADDRESS)) == {0};
  }

  lemma FoundByReset(w: World)
    requires w.db.users == map[0 := ASKED]
    ensures ByReset(w.db, 5) == OneRow(0)
  {
    assert (set u | u in w.db.users && w.db.users[u].reset == Some(Sha256(5))) == {0};
  }

  /** Two requests that reset with the same token, both reading before either writes. */
  const RESETTING: seq<RefreshRace.Move> :=
    [ReadReset(0, 0, 5, PASSWORD, false), ReadReset(1, 0, 5, PASSWORD, false), Write(0, 0), Write(1, 0)]

  lemma ResetDecided(w: World)
    requires w.db.users == map[0 := ASKED] && w.clock < RESET_LIFETIME
    ensures DecideReset(w, 5, PASSWORD, false) == Later(ResetJob(0, 5, PASSWORD, false, w.clock))
  {
    hide ByReset;
    hide Acceptable;
    FoundByReset(w);
    LocalPartAda();
    PasswordAcceptable();
  }

  lemma BothReset(cfg: Settings, r: Race)
    requires r.world.db.users == map[0 := ASKED] && r.world.clock == 2 && r.jobs == map[]
    ensures var log := Play(cfg, r, RESETTING).log;
            && |log| == |r.log| + 2
            && UsedIn(log[|r.log|], MailedSecret(ResetMail, 5)) && UsedIn(log[|r.log| + 1], MailedSecret(ResetMail, 5))
  {
    hide DecideReset;
    hide Play;
    hide RevokeFamiliesOf;
    ResetDecided(Tick(r.world, 0));
    ResetDecided(Tick(Tick(r.world, 0), 0));
    PlayFour(cfg, r, RESETTING[0], RESETTING[1], RESETTING[2], RESETTING[3]);
    assert RESETTING == [RESETTING[0], RESETTING[1], RESETTING[2], RESETTING[3]];
  }

  /** Two overlapping resets with one mailed token both set the password. */
  lemma ResetUsedTwice(cfg: Settings)
    ensures var moves := [Whole(REGISTERING), Whole(ASKING)] + RESETTING;
            Uses(Play(cfg, IDLE, moves).log, MailedSecret(ResetMail, 5)) >= 2
  {
    hide Play;
    hide Uses;
    hide UsedIn;
    hide Step;
    var first: seq<RefreshRace.Move> := [Whole(REGISTERING), Whole(ASKING)];
    PlayTwo(cfg, IDLE, Whole(REGISTERING), Whole(ASKING));
    Registered(cfg);
    Asked(cfg, Step(cfg, START, REGISTERING).world);
    var r := Play(cfg, IDLE, first);
    BothReset(cfg, r);
    PlayConcat(cfg, IDLE, first, RESETTING);
    UsesTwice(Play(cfg, r, RESETTING).log, MailedSecret(ResetMail, 5));
  }

  // ---- Two verifications ----

  /** Two requests that verify with the registration's token, both reading before either writes. */
  const VERIFYING: seq<RefreshRace.Move> := [ReadVerify(0, 0, 1), ReadVerify(1, 0, 1), Write(0, 0), Write(1, 0)]

  lemma VerifyDecided(w: World)
    requires w.db.users == map[0 := ADA]
    ensures DecideVerify(w, 1) == Later(VerifyJob(0, 1, w.clock))
  {
    assert (set u | u in w.db.users && w.db.users[u].verification == Some(Sha256(1))) == {0};
  }

  lemma BothVerify(cfg: Settings, r: Race)
    requires r.world.db.users == map[0 := ADA] && r.jobs == map[]
    ensures var log := Play(cfg, r, VERIFYING).log;
            && |log| == |r.log| + 2
            && UsedIn(log[|r.log|], MailedSecret(VerifyMail, 1))
            && UsedIn(log[|r.log| + 1], MailedSecret(VerifyMail, 1))
  {
    hide DecideVerify;
    hide Play;
    VerifyDecided(Tick(r.world, 0));
    VerifyDecided(Tick(Tick(r.world, 0), 0));
    PlayFour(cfg, r, VERIFYING[0], VERIFYING[1], VERIFYING[2], VERIFYING[3]);
    assert VERIFYING == [VERIFYING[0], VERIFYING[1], VERIFYING[2], VERIFYING[3]];
  }

  /** Two overlapping verifications with one mailed token both succeed. */
  lemma VerificationUsedTwice(cfg: Settings)
    ensures Uses(Play(cfg, IDLE, [Whole(REGISTERING)] + VERIFYING).log, MailedSecret(VerifyMail, 1)) >= 2
  {
    hide Play;
    hide Uses;
    hide UsedIn;
    hide Step;
    PlayTwo(cfg, IDLE, Whole(REGISTERING), Whole(REGISTERING));
    Registered(cfg);
    var r := Play(cfg, IDLE, [Whole(REGISTERING)]);
    BothVerify(cfg, r);
    PlayConcat(cfg, IDLE, [Whole(REGISTERING)], VERIFYING);
    UsesTwice(Play(cfg, r, VERIFYING).log, MailedSecret(VerifyMail, 1));
  }
}
