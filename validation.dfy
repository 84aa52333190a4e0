/** Form validators shared by the sign-up and assessment pages. */
module Validation {
  import opened Base
  import opened JsText

  datatype ValidationResult = Valid | Invalid(message: string)

  const EmailRequired := "Email is required"
  const EmailMalformed := "Please enter a valid email address"
  const PasswordRequired := "Password is required"
  const PasswordTooShort := "Password must be at least 8 characters long"
  const PasswordNoUpper := "Password must contain at least one uppercase letter"
  const PasswordNoLower := "Password must contain at least one lowercase letter"
  const PasswordNoDigit := "Password must contain at least one number"

  // ---------------------------------------------------------------------------
  // Email shape

  /** A character of the class `[^\s@]`. */
  predicate IsPlain(c: char) {
    !IsWhitespace(c) && c != '@'
  }

  predicate AllPlain(s: string) {
    forall i :: 0 <= i < |s| ==> IsPlain(s[i])
  }

  /** The language of `/^[^\s@]+@[^\s@]+\.[^\s@]+$/`: three non-empty runs of
      plain characters joined by an `@` and then a dot. */
  ghost predicate MatchesEmailPattern(s: string) {
    exists a, b :: 0 < a && a + 1 < b && b + 1 < |s| && s[a] == '@' && s[b] == '.' &&
      AllPlain(s[..a]) && AllPlain(s[a + 1..b]) && AllPlain(s[b + 1..])
  }

  /** Index of the first `@`, scanning from the left. */
  function FirstAt(s: string): (r: Option<nat>)
    ensures r.Some? ==> r.value < |s| && s[r.value] == '@' && '@' !in s[..r.value]
    ensures r.None? ==> '@' !in s
  {
    if s == [] then None
    else if s[0] == '@' then Some(0)
    else
      match FirstAt(s[1..])
      case None => None
      case Some(k) => assert s[..k + 1] == [s[0]] + s[1..][..k]; Some(k + 1)
  }

  /** A domain part `[^\s@]+\.[^\s@]+`: plain characters with a dot that is
      neither first nor last. */
  predicate DomainShaped(d: string) {
    AllPlain(d) && exists j :: 0 < j < |d| - 1 && d[j] == '.'
  }

  /** The scan that decides the email shape: split at the first `@`, a
      non-empty plain local part before it, a domain after it. */
  predicate EmailShaped(s: string) {
    match FirstAt(s)
    case None => false
    case Some(a) => a > 0 && AllPlain(s[..a]) && DomainShaped(s[a + 1..])
  }

  lemma EmailShapedMatchesPattern(s: string)
    ensures EmailShaped(s) <==> MatchesEmailPattern(s)
  {
    if EmailShaped(s) {
      ShapedGivesPattern(s);
    }
    if MatchesEmailPattern(s) {
      var a, b :| 0 < a && a + 1 < b && b + 1 < |s| && s[a] == '@' && s[b] == '.' &&
        AllPlain(s[..a]) && AllPlain(s[a + 1..b]) && AllPlain(s[b + 1..]);
      PatternGivesShape(s, a, b);
    }
  }

  lemma ShapedGivesPattern(s: string)
    requires EmailShaped(s)
    ensures MatchesEmailPattern(s)
  {
    var a := FirstAt(s).value;
    var d := s[a + 1..];
    var j :| 0 < j < |d| - 1 && d[j] == '.';
    var b := a + 1 + j;
    assert s[a + 1..b] == d[..j];
    assert s[b + 1..] == d[j + 1..];
    assert s[b] == d[j];
    assert AllPlain(d[..j]) && AllPlain(d[j + 1..]);
  }

  /** A plain run holds no `@`. */
  lemma PlainHasNoAt(s: string)
    requires AllPlain(s)
    ensures '@' !in s
  {
  }

  lemma FirstAtIs(s: string, a: nat)
    requires a < |s| && s[a] == '@' && '@' !in s[..a]
    ensures FirstAt(s) == Some(a)
  {
  }

  lemma PatternGivesShape(s: string, a: nat, b: nat)
    requires 0 < a && a + 1 < b && b + 1 < |s| && s[a] == '@' && s[b] == '.'
    requires AllPlain(s[..a]) && AllPlain(s[a + 1..b]) && AllPlain(s[b + 1..])
    ensures EmailShaped(s)
  {
    PlainHasNoAt(s[..a]);
    FirstAtIs(s, a);
    var d := s[a + 1..];
    var j := b - a - 1;
    assert d[j] == '.';
    forall i | 0 <= i < |d| ensures IsPlain(d[i]) {
      if i < j {
        assert d[i] == s[a + 1..b][i];
      } else if i > j {
        assert d[i] == s[b + 1..][i - j - 1];
      }
    }
    assert DomainShaped(d);
  }

  /** `validateEmail`: the empty string is missing, otherwise the address
      must match the pattern. */
  function ValidateEmail(email: string): (r: ValidationResult)
    ensures email == [] ==> r == Invalid(EmailRequired)
    ensures r.Valid? <==> MatchesEmailPattern(email)
    ensures email != [] && r.Invalid? ==> r.message == EmailMalformed
  {
    EmailShapedMatchesPattern(email);
    if email == [] then Invalid(EmailRequired)
    else if !EmailShaped(email) then Invalid(EmailMalformed)
    else Valid
  }

  // ---------------------------------------------------------------------------
  // Passwords

  predicate IsAsciiUpper(c: char) { 'A' <= c <= 'Z' }
  predicate IsAsciiLower(c: char) { 'a' <= c <= 'z' }
  predicate IsAsciiDigit(c: char) { '0' <= c <= '9' }

  /** `/[A-Z]/.test(s)` */
  predicate HasUpper(s: string) { exists i :: 0 <= i < |s| && IsAsciiUpper(s[i]) }
  /** `/[a-z]/.test(s)` */
  predicate HasLower(s: string) { exists i :: 0 <= i < |s| && IsAsciiLower(s[i]) }
  /** `/\d/.test(s)` */
  predicate HasDigit(s: string) { exists i :: 0 <= i < |s| && IsAsciiDigit(s[i]) }
  /** `/[^A-Za-z0-9]/.test(s)` */
  predicate HasSymbol(s: string) {
    exists i :: 0 <= i < |s| && !IsAsciiUpper(s[i]) && !IsAsciiLower(s[i]) && !IsAsciiDigit(s[i])
  }

  /** `validatePassword`: the checks run in a fixed order and the first one
      that fails names the message. */
  function ValidatePassword(password: string): (r: ValidationResult)
    ensures r.Valid? <==> |password| >= 8 && HasUpper(password) && HasLower(password) && HasDigit(password)
    ensures password == [] ==> r == Invalid(PasswordRequired)
    ensures 0 < |password| < 8 ==> r == Invalid(PasswordTooShort)
    ensures |password| >= 8 && !HasUpper(password) ==> r == Invalid(PasswordNoUpper)
    ensures |password| >= 8 && HasUpper(password) && !HasLower(password) ==> r == Invalid(PasswordNoLower)
    ensures |password| >= 8 && HasUpper(password) && HasLower(password) && !HasDigit(password) ==>
              r == Invalid(PasswordNoDigit)
  {
    if password == [] then Invalid(PasswordRequired)
    else if |password| < 8 then Invalid(PasswordTooShort)
    else if !HasUpper(password) then Invalid(PasswordNoUpper)
    else if !HasLower(password) then Invalid(PasswordNoLower)
    else if !HasDigit(password) then Invalid(PasswordNoDigit)
    else Valid
  }

  datatype StrengthLevel = Weak | Medium | Strong
  datatype Strength = Strength(level: StrengthLevel, score: int)

  /** The six strength criteria, in the order the source scores them. */
  function StrengthCriteria(password: string): seq<bool> {
    [|password| >= 8, |password| >= 12, HasUpper(password), HasLower(password),
     HasDigit(password), HasSymbol(password)]
  }

  /** Number of satisfied criteria. */
  function CountTrue(bs: seq<bool>): (n: nat)
    ensures n <= |bs|
  {
    if bs == [] then 0 else (if bs[0] then 1 else 0) + CountTrue(bs[1..])
  }

  function Point(b: bool): int { if b then 1 else 0 }

  /** `getPasswordStrength`: one point per satisfied criterion, then a level
      by band. */
  function GetPasswordStrength(password: string): (r: Strength)
    ensures r.score == CountTrue(StrengthCriteria(password))
    ensures 0 <= r.score <= 6
    ensures r.level == Weak <==> r.score <= 2
    ensures r.level == Medium <==> 3 <= r.score <= 4
    ensures r.level == Strong <==> r.score >= 5
    ensures ValidatePassword(password).Valid? ==> r.score >= 4 && r.level != Weak
  {
    var c := StrengthCriteria(password);
    var score := Point(|password| >= 8) + Point(|password| >= 12) + Point(HasUpper(password)) +
      Point(HasLower(password)) + Point(HasDigit(password)) + Point(HasSymbol(password));
    assert CountTrue(c[5..]) == Point(c[5]);
    assert CountTrue(c[4..]) == Point(c[4]) + Point(c[5]);
    assert CountTrue(c[3..]) == Point(c[3]) + Point(c[4]) + Point(c[5]);
    assert CountTrue(c[2..]) == Point(c[2]) + Point(c[3]) + Point(c[4]) + Point(c[5]);
    assert CountTrue(c[1..]) == Point(c[1]) + Point(c[2]) + Point(c[3]) + Point(c[4]) + Point(c[5]);
    if score <= 2 then Strength(Weak, score)
    else if score <= 4 then Strength(Medium, score)
    else Strength(Strong, score)
  }

  // ---------------------------------------------------------------------------
  // Bot timing

  /** Default minimum time, in milliseconds, a human takes to fill a form. */
  const DefaultMinFormTime := 3000

  /** `detectBot(startTime, minTime)` with the clock reading passed in: the
      form counts as a bot's when it came back in less than `minTime`. */
  function DetectBot(startTime: int, now: int, minTime: int): (isBot: bool)
    ensures isBot <==> now < startTime + minTime
  {
    now - startTime < minTime
  }

  /** Once `minTime` has passed since the form opened, it is never taken for
      a bot's again, and before that it always is. */
  lemma DetectBotSettles(startTime: int, now: int, later: int, minTime: int)
    requires now <= later
    ensures !DetectBot(startTime, now, minTime) ==> !DetectBot(startTime, later, minTime)
    ensures DetectBot(startTime, later, minTime) ==> DetectBot(startTime, now, minTime)
  {
  }
}
