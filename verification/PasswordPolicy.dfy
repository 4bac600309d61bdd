/**
 Which passwords are accepted (app/core/password_policy.py:26-56) and how they are stored and
 checked (app/core/security.py:14-28). bcrypt is the constructor of a hash that only its own
 password matches; the breach look-up is a parameter of the calling service.
 */
module PasswordPolicy {
  import opened Prelude
  import opened Text

  const MIN_PASSWORD_LENGTH: nat := 12
  const BCRYPT_MAX_PASSWORD_BYTES: nat := 72

  const COMMON_PASSWORDS: set<string> :=
    {"password", "password1", "password123", "qwerty123", "admin123", "letmein", "welcome", "iloveyou"}

  datatype Rule = TooShort | NoLowercase | NoUppercase | NoNumber | NoSymbol | TooCommon | ContainsUsername

  predicate IsAlphanumeric(c: char) {
    'a' <= c <= 'z' || 'A' <= c <= 'Z' || '0' <= c <= '9'
  }

  /** `email.split("@", maxsplit=1)[0]` */
  function LocalPart(email: string): string {
    if email == [] || email[0] == '@' then [] else [email[0]] + LocalPart(email[1..])
  }

  datatype CharClass = Lowercase | Uppercase | Number | Symbol

  predicate InClass(c: char, cls: CharClass) {
    match cls
    case Lowercase => 'a' <= c <= 'z'
    case Uppercase => 'A' <= c <= 'Z'
    case Number => '0' <= c <= '9'
    case Symbol => !IsAlphanumeric(c)
  }

  /** `re.search` for one character of the class. */
  predicate HasOne(password: string, cls: CharClass) {
    exists c | c in password :: InClass(c, cls)
  }

  predicate IsCommon(normalized: string) {
    normalized in COMMON_PASSWORDS
  }

  predicate NamesUser(normalized: string, email: string) {
    var local := Lower(LocalPart(email));
    local != [] && Occurs(local, normalized)
  }

  predicate Broken(rule: Rule, password: string, email: string) {
    match rule
    case TooShort => |password| < MIN_PASSWORD_LENGTH
    case NoLowercase => !HasOne(password, Lowercase)
    case NoUppercase => !HasOne(password, Uppercase)
    case NoNumber => !HasOne(password, Number)
    case NoSymbol => !HasOne(password, Symbol)
    case TooCommon => IsCommon(Lower(password))
    case ContainsUsername => NamesUser(Lower(password), email)
  }

  predicate Compliant(password: string, email: string) {
    forall rule: Rule :: !Broken(rule, password, email)
  }

  // ---- The rules in the policy's own terms ----

  ghost predicate LocalPartOf(local: string, email: string) {
    '@' !in local && (email == local || exists domain :: email == local + "@" + domain)
  }

  lemma {:induction false} LocalPartIff(local: string, email: string)
    ensures LocalPartOf(local, email) <==> local == LocalPart(email)
  {
    LocalPartSplits(email);
    if LocalPartOf(local, email) {
      LocalPartFound(local, email);
    }
  }

  lemma {:induction false} LocalPartSplits(email: string)
    ensures LocalPartOf(LocalPart(email), email)
  {
    if email == [] {
    } else if email[0] == '@' {
      assert email == [] + "@" + email[1..];
    } else {
      LocalPartSplits(email[1..]);
      var local := LocalPart(email[1..]);
      assert email == [email[0]] + email[1..];
      if domain :| email[1..] == local + "@" + domain {
        assert email == ([email[0]] + local) + "@" + domain;
      }
    }
  }

  lemma {:induction false} LocalPartFound(local: string, email: string)
    requires LocalPartOf(local, email)
    ensures LocalPart(email) == local
  {
    if local == [] {
      if domain :| email == local + "@" + domain {
        assert email[0] == '@';
      }
    } else {
      assert email[0] == local[0] && local[0] in local;
      if domain :| email == local + "@" + domain {
        assert email[1..] == local[1..] + "@" + domain;
      } else {
        assert email[1..] == local[1..];
      }
      LocalPartFound(local[1..], email[1..]);
    }
  }

  /** The password contains the part of the address before the first '@', in any case. */
  ghost predicate ContainsLocalPart(password: string, email: string) {
    exists local, a, b :: LocalPartOf(local, email) && local != "" && Lower(password) == a + Lower(local) + b
  }

  lemma NamesUserIff(password: string, email: string)
    ensures Broken(ContainsUsername, password, email) <==> ContainsLocalPart(password, email)
  {
    hide LocalPartOf;
    hide Occurs;
    var local := LocalPart(email);
    LocalPartIff(local, email);
    OccursIff(Lower(local), Lower(password));
    forall l | LocalPartOf(l, email) ensures l == local {
      LocalPartIff(l, email);
    }
  }

  lemma ClassMeanings(password: string)
    ensures HasOne(password, Lowercase) <==> exists i :: 0 <= i < |password| && 'a' <= password[i] <= 'z'
    ensures HasOne(password, Uppercase) <==> exists i :: 0 <= i < |password| && 'A' <= password[i] <= 'Z'
    ensures HasOne(password, Number) <==> exists i :: 0 <= i < |password| && '0' <= password[i] <= '9'
    ensures HasOne(password, Symbol) <==>
              exists i :: && 0 <= i < |password| && !('a' <= password[i] <= 'z')
                          && !('A' <= password[i] <= 'Z') && !('0' <= password[i] <= '9')
  {
    forall cls: CharClass
      ensures HasOne(password, cls) <==> exists i :: 0 <= i < |password| && InClass(password[i], cls)
    {
      if c :| c in password && InClass(c, cls) {
        var i :| 0 <= i < |password| && password[i] == c;
      }
    }
  }

  /** What a password must meet, in the policy's own terms. */
  ghost predicate Meets(password: string, email: string) {
    && 12 <= |password|
    && (exists i :: 0 <= i < |password| && 'a' <= password[i] <= 'z')
    && (exists i :: 0 <= i < |password| && 'A' <= password[i] <= 'Z')
    && (exists i :: 0 <= i < |password| && '0' <= password[i] <= '9')
    && (exists i :: && 0 <= i < |password| && !('a' <= password[i] <= 'z')
                    && !('A' <= password[i] <= 'Z') && !('0' <= password[i] <= '9'))
    && Lower(password) !in {"password", "password1", "password123", "qwerty123", "admin123", "letmein", "welcome",
                            "iloveyou"}
    && !ContainsLocalPart(password, email)
  }

  lemma CompliantIff(password: string, email: string)
    ensures Compliant(password, email) <==> Meets(password, email)
  {
    hide HasOne;
    hide NamesUser;
    hide ContainsLocalPart;
    hide Lower;
    ClassMeanings(password);
    NamesUserIff(password, email);
    CommonMeaning(password, email);
    if Meets(password, email) {
      EveryRule(password, email);
    } else {
      var rule := if Broken(TooShort, password, email) then TooShort
                  else if Broken(NoLowercase, password, email) then NoLowercase
                  else if Broken(NoUppercase, password, email) then NoUppercase
                  else if Broken(NoNumber, password, email) then NoNumber
                  else if Broken(NoSymbol, password, email) then NoSymbol
                  else if Broken(TooCommon, password, email) then TooCommon
                  else ContainsUsername;
      assert Broken(rule, password, email);
    }
  }

  lemma EveryRule(password: string, email: string)
    requires !Broken(TooShort, password, email) && !Broken(NoLowercase, password, email)
    requires !Broken(NoUppercase, password, email) && !Broken(NoNumber, password, email)
    requires !Broken(NoSymbol, password, email) && !Broken(TooCommon, password, email)
    requires !Broken(ContainsUsername, password, email)
    ensures Compliant(password, email)
  {
    hide Broken;
    forall rule: Rule ensures !Broken(rule, password, email) {
      match rule
      case TooShort =>
      case NoLowercase =>
      case NoUppercase =>
      case NoNumber =>
      case NoSymbol =>
      case TooCommon =>
      case ContainsUsername =>
    }
  }

  lemma CommonMeaning(password: string, email: string)
    ensures Broken(TooCommon, password, email) <==>
              Lower(password) in {"password", "password1", "password123", "qwerty123", "admin123", "letmein",
                                  "welcome", "iloveyou"}
  {
    hide Lower;
  }

  function When(b: bool, rule: Rule): seq<Rule> {
    if b then [rule] else []
  }

  /** What the list of complaints says about the password. */
  lemma ComplaintMeanings(errors: seq<Rule>, password: string, email: string)
    requires forall rule: Rule :: rule in errors <==> Broken(rule, password, email)
    ensures TooShort in errors <==> |password| < 12
    ensures NoLowercase in errors <==> forall i | 0 <= i < |password| :: !('a' <= password[i] <= 'z')
    ensures NoUppercase in errors <==> forall i | 0 <= i < |password| :: !('A' <= password[i] <= 'Z')
    ensures NoNumber in errors <==> forall i | 0 <= i < |password| :: !('0' <= password[i] <= '9')
    ensures NoSymbol in errors <==>
              forall i | 0 <= i < |password| ::
                'a' <= password[i] <= 'z' || 'A' <= password[i] <= 'Z' || '0' <= password[i] <= '9'
    ensures TooCommon in errors <==> Lower(password) in {"password", "password1", "password123", "qwerty123",
                                                         "admin123", "letmein", "welcome", "iloveyou"}
    ensures ContainsUsername in errors <==> ContainsLocalPart(password, email)
  {
    hide HasOne;
    hide NamesUser;
    hide ContainsLocalPart;
    hide Lower;
    ClassMeanings(password);
    NamesUserIff(password, email);
    CommonMeaning(password, email);
  }

  /** The messages come in the order in which the rules are checked. */
  method ValidatePasswordStrength(password: string, email: string) returns (errors: seq<Rule>)
    ensures TooShort in errors <==> |password| < 12
    ensures NoLowercase in errors <==> forall i | 0 <= i < |password| :: !('a' <= password[i] <= 'z')
    ensures NoUppercase in errors <==> forall i | 0 <= i < |password| :: !('A' <= password[i] <= 'Z')
    ensures NoNumber in errors <==> forall i | 0 <= i < |password| :: !('0' <= password[i] <= '9')
    ensures NoSymbol in errors <==>
              forall i | 0 <= i < |password| ::
                'a' <= password[i] <= 'z' || 'A' <= password[i] <= 'Z' || '0' <= password[i] <= '9'
    ensures TooCommon in errors <==> Lower(password) in {"password", "password1", "password123", "qwerty123",
                                                         "admin123", "letmein", "welcome", "iloveyou"}
    ensures ContainsUsername in errors <==> ContainsLocalPart(password, email)
    ensures errors == [] <==> Compliant(password, email)
  {
    hide HasOne;
    hide IsCommon;
    hide Lower;
    hide ContainsLocalPart;
    hide NamesUser;
    hide When;
    var normalized := Lower(password);
    errors := When(|password| < MIN_PASSWORD_LENGTH, TooShort);
    errors := errors + When(!HasOne(password, Lowercase), NoLowercase);
    errors := errors + When(!HasOne(password, Uppercase), NoUppercase);
    errors := errors + When(!HasOne(password, Number), NoNumber);
    errors := errors + When(!HasOne(password, Symbol), NoSymbol);
    errors := errors + When(IsCommon(normalized), TooCommon);
    if email != "" {
      errors := errors + When(NamesUser(normalized, email), ContainsUsername);
    } else {
      EmptyEmailNamesNobody(normalized);
      assert errors + When(NamesUser(normalized, email), ContainsUsername) == errors;
    }
    assert errors == InOrder(password, email);
    hide *;
    InOrderLists(password, email);
    ComplaintMeanings(errors, password, email);
  }

  lemma EmptyEmailNamesNobody(normalized: string)
    ensures !NamesUser(normalized, "") && When(NamesUser(normalized, ""), ContainsUsername) == []
  {
  }

  function InOrder(password: string, email: string): seq<Rule> {
    When(Broken(TooShort, password, email), TooShort)
    + When(Broken(NoLowercase, password, email), NoLowercase)
    + When(Broken(NoUppercase, password, email), NoUppercase)
    + When(Broken(NoNumber, password, email), NoNumber)
    + When(Broken(NoSymbol, password, email), NoSymbol)
    + When(Broken(TooCommon, password, email), TooCommon)
    + When(Broken(ContainsUsername, password, email), ContainsUsername)
  }

  lemma WhenHas()
    ensures forall b: bool, x: Rule, rule: Rule :: x in When(b, rule) <==> b && x == rule
    ensures forall b: bool, rule: Rule :: When(b, rule) == [] <==> !b
  {
  }

  lemma InOrderLists(password: string, email: string)
    ensures forall rule: Rule :: rule in InOrder(password, email) <==> Broken(rule, password, email)
    ensures InOrder(password, email) == [] <==> Compliant(password, email)
  {
    hide Broken;
    hide When;
    var all := InOrder(password, email);
    WhenHas();
    forall rule: Rule ensures rule in all <==> Broken(rule, password, email) {
      match rule
      case TooShort =>
      case NoLowercase =>
      case NoUppercase =>
      case NoNumber =>
      case NoSymbol =>
      case TooCommon =>
      case ContainsUsername =>
    }
    assert all != [] ==> all[0] in all;
  }

  /** Every listed common password is already too short, so that rule never decides alone. */
  lemma CommonIsTooShort(password: string, email: string)
    requires Broken(TooCommon, password, email)
    ensures Broken(TooShort, password, email)
  {
    assert |Lower(password)| == |password|;
  }

  function Utf8Width(c: char): nat {
    var n := c as int;
    if n < 0x80 then 1 else if n < 0x800 then 2 else if n < 0x1_0000 then 3 else 4
  }

  /** `len(password.encode("utf-8"))` */
  function Utf8Length(s: string): nat {
    if s == [] then 0 else Utf8Length(s[..|s| - 1]) + Utf8Width(s[|s| - 1])
  }

  /** The bytes of a character, section 3 of RFC 3629. */
  function Utf8(c: char): seq<int> {
    var n := c as int;
    if n < 0x80 then [n]
    else if n < 0x800 then [0xC0 + n / 64, 0x80 + n % 64]
    else if n < 0x1_0000 then [0xE0 + n / 4096, 0x80 + n / 64 % 64, 0x80 + n % 64]
    else [0xF0 + n / 262144, 0x80 + n / 4096 % 64, 0x80 + n / 64 % 64, 0x80 + n % 64]
  }

  /** `password.encode("utf-8")` */
  function Utf8Encode(s: string): seq<int> {
    if s == [] then [] else Utf8Encode(s[..|s| - 1]) + Utf8(s[|s| - 1])
  }

  lemma {:induction false} Utf8LengthIsBytes(s: string)
    ensures Utf8Length(s) == |Utf8Encode(s)|
  {
    if s != [] {
      Utf8LengthIsBytes(s[..|s| - 1]);
    }
  }

  datatype PasswordHash = Bcrypt(password: string)

  /** `get_password_hash`: None where the service raises ValueError. */
  function HashPassword(password: string): Option<PasswordHash> {
    if Utf8Length(password) > BCRYPT_MAX_PASSWORD_BYTES then None else Some(Bcrypt(password))
  }

  predicate VerifyPassword(password: string, hash: PasswordHash) {
    Utf8Length(password) <= BCRYPT_MAX_PASSWORD_BYTES && hash == Bcrypt(password)
  }

  /** A new password is taken when no rule is broken, no breach is reported and bcrypt can hold it. */
  predicate Acceptable(password: string, email: string, breached: bool) {
    Compliant(password, email) && !breached && HashPassword(password).Some?
  }

  /** The policy takes this password for this address: its rules, no reported breach, and bcrypt's 72 bytes. */
  ghost predicate Passes(password: string, email: string, breached: bool) {
    Meets(password, email) && !breached && |Utf8Encode(password)| <= 72
  }

  /** What the code accepts is what the policy says. */
  lemma AcceptableIff(password: string, email: string, breached: bool)
    ensures Acceptable(password, email, breached) <==> Passes(password, email, breached)
  {
    hide Compliant;
    hide Meets;
    CompliantIff(password, email);
    Utf8LengthIsBytes(password);
  }
}
