/**
 * Validation of a sign-up request: the username and e-mail are trimmed in
 * place, then an ordered chain of checks runs and the first one that fails
 * decides the error.
 */
module SignUp {
  import opened Results
  import opened Strings

  /** The request errors `Validate` can return. */
  datatype ApiError =
    | ErrorUsernameIsRequired
    | ErrorEmailIsRequired
    | ErrorPasswordIsRequired
    | ErrorRepeatedPasswordIsRequired
    | ErrorInvalidUsernameLength
    | ErrorInvalidEmailLength
    | ErrorInvalidEmail
    | ErrorInvalidPasswordLength
    | ErrorInvalidPasswordCharacter
    | ErrorMissingUpperInPassword
    | ErrorMissingDigitInPassword
    | ErrorPasswordsNotEqual

  /**
   * The Unicode classes consulted: `unicode.IsSpace` (through
   * `strings.TrimSpace`), `unicode.IsLetter` and `unicode.IsDigit`.
   */
  datatype RuneClasses = RuneClasses(isSpace: char -> bool, isLetter: char -> bool, isDigit: char -> bool)

  /** One validation rule: whether it holds, and the error it gives if not. */
  datatype Check = Check(passes: bool, failure: ApiError)

  /** The failure of the first rule that does not hold, if any. */
  function FirstFailure(checks: seq<Check>): Option<ApiError>
  {
    if checks == [] then None
    else if !checks[0].passes then Some(checks[0].failure)
    else FirstFailure(checks[1..])
  }

  /** No failure exactly when every rule holds. */
  lemma {:induction false} FirstFailureNone(checks: seq<Check>)
    ensures FirstFailure(checks).None? <==> forall k :: 0 <= k < |checks| ==> checks[k].passes
  {
    if checks != [] {
      FirstFailureNone(checks[1..]);
      assert forall k :: 1 <= k < |checks| ==> checks[k] == checks[1..][k - 1];
    }
  }

  /** A failure reported is that of a rule that fails after all earlier ones hold. */
  lemma {:induction false} FirstFailureSome(checks: seq<Check>)
    requires FirstFailure(checks).Some?
    ensures exists k :: 0 <= k < |checks| && !checks[k].passes && checks[k].failure == FirstFailure(checks).value
                        && forall j :: 0 <= j < k ==> checks[j].passes
  {
    if checks[0].passes {
      FirstFailureSome(checks[1..]);
      var k :| 0 <= k < |checks[1..]| && !checks[1..][k].passes && checks[1..][k].failure == FirstFailure(checks[1..]).value
               && forall j :: 0 <= j < k ==> checks[1..][j].passes;
      assert forall j :: 1 <= j < k + 1 ==> checks[j] == checks[1..][j - 1];
      assert 0 <= k + 1 < |checks| && !checks[k + 1].passes;
    } else {
      assert !checks[0].passes;
    }
  }

  /** The first rule that fails decides the result. */
  lemma {:induction false} FirstFailureAt(checks: seq<Check>, k: nat)
    requires k < |checks| && !checks[k].passes
    requires forall j :: 0 <= j < k ==> checks[j].passes
    ensures FirstFailure(checks) == Some(checks[k].failure)
  {
    if k > 0 {
      assert forall j :: 0 <= j < k - 1 ==> checks[1..][j] == checks[j + 1];
      FirstFailureAt(checks[1..], k - 1);
    }
  }

  predicate LetterOrDigit(rc: RuneClasses, c: char)
  {
    rc.isLetter(c) || rc.isDigit(c)
  }

  /** Every rune of the password is a letter or a digit. */
  predicate AllLetterOrDigit(rc: RuneClasses, p: string)
  {
    forall i :: 0 <= i < |p| ==> LetterOrDigit(rc, p[i])
  }

  predicate HasLetter(rc: RuneClasses, p: string)
  {
    exists i :: 0 <= i < |p| && rc.isLetter(p[i])
  }

  /** A digit that the letter test did not claim first (the loop tests letters first). */
  predicate HasDigit(rc: RuneClasses, p: string)
  {
    exists i :: 0 <= i < |p| && !rc.isLetter(p[i]) && rc.isDigit(p[i])
  }

  /** The four fields must be present (the username and e-mail after trimming). */
  function RequiredRules(username: string, email: string, password: string, repeated: string): seq<Check>
  {
    [ Check(username != "", ErrorUsernameIsRequired),
      Check(email != "", ErrorEmailIsRequired),
      Check(password != "", ErrorPasswordIsRequired),
      Check(repeated != "", ErrorRepeatedPasswordIsRequired) ]
  }

  /** Rune-count bounds, and exactly one `@` in the e-mail. */
  function FormatRules(username: string, email: string, password: string): seq<Check>
  {
    [ Check(4 <= |username| <= 32, ErrorInvalidUsernameLength),
      Check(5 <= |email| <= 84, ErrorInvalidEmailLength),
      Check(Count(email, '@') == 1, ErrorInvalidEmail),
      Check(8 <= |password| <= 64, ErrorInvalidPasswordLength) ]
  }

  /** Letters and digits only, at least one of each, and the repetition matches. */
  function PasswordRules(password: string, repeated: string, rc: RuneClasses): seq<Check>
  {
    [ Check(AllLetterOrDigit(rc, password), ErrorInvalidPasswordCharacter),
      Check(HasLetter(rc, password), ErrorMissingUpperInPassword),
      Check(HasDigit(rc, password), ErrorMissingDigitInPassword),
      Check(password == repeated, ErrorPasswordsNotEqual) ]
  }

  /** All the rules, in the order they run, on the already trimmed fields. */
  function Checks(username: string, email: string, password: string, repeated: string,
                  rc: RuneClasses): seq<Check>
  {
    RequiredRules(username, email, password, repeated) + FormatRules(username, email, password)
      + PasswordRules(password, repeated, rc)
  }

  /** The rules of a concatenation are tried left part first. */
  lemma {:induction false} FirstFailureAppend(a: seq<Check>, b: seq<Check>)
    ensures FirstFailure(a + b) == if FirstFailure(a).Some? then FirstFailure(a) else FirstFailure(b)
  {
    if a != [] {
      assert (a + b)[1..] == a[1..] + b;
      FirstFailureAppend(a[1..], b);
    } else {
      assert a + b == b;
    }
  }

  /** The first failure of four rules, spelt out. */
  lemma FirstFailureOfFour(cs: seq<Check>)
    requires |cs| == 4
    ensures FirstFailure(cs) ==
      if !cs[0].passes then Some(cs[0].failure)
      else if !cs[1].passes then Some(cs[1].failure)
      else if !cs[2].passes then Some(cs[2].failure)
      else if !cs[3].passes then Some(cs[3].failure)
      else None
  {
    if !cs[0].passes {
      FirstFailureAt(cs, 0);
    } else if !cs[1].passes {
      FirstFailureAt(cs, 1);
    } else if !cs[2].passes {
      FirstFailureAt(cs, 2);
    } else if !cs[3].passes {
      FirstFailureAt(cs, 3);
    } else {
      FirstFailureNone(cs);
    }
  }

  /**
   * The rules read as a chain of early returns: each error is returned
   * exactly when every earlier rule holds and its own rule fails.
   */
  lemma RulesInOrder(username: string, email: string, password: string, repeated: string, rc: RuneClasses)
    ensures FirstFailure(Checks(username, email, password, repeated, rc)) ==
      if username == "" then Some(ErrorUsernameIsRequired)
      else if email == "" then Some(ErrorEmailIsRequired)
      else if password == "" then Some(ErrorPasswordIsRequired)
      else if repeated == "" then Some(ErrorRepeatedPasswordIsRequired)
      else if !(4 <= |username| <= 32) then Some(ErrorInvalidUsernameLength)
      else if !(5 <= |email| <= 84) then Some(ErrorInvalidEmailLength)
      else if Count(email, '@') != 1 then Some(ErrorInvalidEmail)
      else if !(8 <= |password| <= 64) then Some(ErrorInvalidPasswordLength)
      else if !AllLetterOrDigit(rc, password) then Some(ErrorInvalidPasswordCharacter)
      else if !HasLetter(rc, password) then Some(ErrorMissingUpperInPassword)
      else if !HasDigit(rc, password) then Some(ErrorMissingDigitInPassword)
      else if password != repeated then Some(ErrorPasswordsNotEqual)
      else None
  {
    var required := RequiredRules(username, email, password, repeated);
    var format := FormatRules(username, email, password);
    FirstFailureAppend(required + format, PasswordRules(password, repeated, rc));
    FirstFailureAppend(required, format);
    FirstFailureOfFour(required);
    FirstFailureOfFour(format);
    FirstFailureOfFour(PasswordRules(password, repeated, rc));
  }

  /** The error `Validate` returns for a request with these fields before trimming. */
  function SignupError(username: string, email: string, password: string, repeated: string,
                       rc: RuneClasses): Option<ApiError>
  {
    FirstFailure(Checks(TrimSpace(username, rc.isSpace), TrimSpace(email, rc.isSpace), password, repeated, rc))
  }

  /**
   * A request is accepted exactly when its trimmed username and e-mail and its
   * password meet every bound and class rule and the two passwords agree.
   */
  lemma SignupAcceptedIff(username: string, email: string, password: string, repeated: string,
                          rc: RuneClasses)
    ensures SignupError(username, email, password, repeated, rc).None? <==>
      var u := TrimSpace(username, rc.isSpace);
      var e := TrimSpace(email, rc.isSpace);
      && 4 <= |u| <= 32 && 5 <= |e| <= 84 && Count(e, '@') == 1
      && 8 <= |password| <= 64 && AllLetterOrDigit(rc, password)
      && HasLetter(rc, password) && HasDigit(rc, password) && password == repeated
  {
    RulesInOrder(TrimSpace(username, rc.isSpace), TrimSpace(email, rc.isSpace), password, repeated, rc);
  }

  /** A username made only of white space is reported as missing. */
  lemma BlankUsernameIsMissing(username: string, email: string, password: string, repeated: string,
                               rc: RuneClasses)
    requires AllSpace(username, rc.isSpace)
    ensures SignupError(username, email, password, repeated, rc) == Some(ErrorUsernameIsRequired)
  {
    TrimSpaceSpec(username, rc.isSpace);
    RulesInOrder(TrimSpace(username, rc.isSpace), TrimSpace(email, rc.isSpace), password, repeated, rc);
  }

  /**
   * Validating the already trimmed request again gives the same answer:
   * the in-place trimming of `Validate` does not change a second call.
   */
  lemma RevalidationAgrees(username: string, email: string, password: string, repeated: string,
                           rc: RuneClasses)
    ensures SignupError(TrimSpace(username, rc.isSpace), TrimSpace(email, rc.isSpace), password, repeated, rc)
            == SignupError(username, email, password, repeated, rc)
  {
    TrimSpaceIdempotent(username, rc.isSpace);
    TrimSpaceIdempotent(email, rc.isSpace);
  }

  /**
   * The password loop of `Validate`: walks the runes in order, noting letters
   * and digits, and stops at the first rune that is neither.
   */
  method ScanPassword(password: string, rc: RuneClasses) returns (badChar: bool, hasLetter: bool, hasDigit: bool)
    ensures badChar <==> !AllLetterOrDigit(rc, password)
    ensures !badChar ==> (hasLetter <==> HasLetter(rc, password)) && (hasDigit <==> HasDigit(rc, password))
  {
    badChar, hasLetter, hasDigit := false, false, false;
    var i := 0;
    while i < |password|
      invariant 0 <= i <= |password|
      invariant forall j :: 0 <= j < i ==> LetterOrDigit(rc, password[j])
      invariant hasLetter <==> HasLetter(rc, password[..i])
      invariant hasDigit <==> HasDigit(rc, password[..i])
    {
      var ch := password[i];
      assert password[..i + 1] == password[..i] + [ch];
      if rc.isLetter(ch) {
        hasLetter := true;
      } else if rc.isDigit(ch) {
        hasDigit := true;
      } else {
        badChar := true;
        return;
      }
      i := i + 1;
    }
    assert password[..i] == password;
  }

  class SignupRequest {
    var username: string
    var email: string
    var password: string
    var repeatedPassword: string

    constructor (username: string, email: string, password: string, repeatedPassword: string)
      ensures this.username == username && this.email == email
      ensures this.password == password && this.repeatedPassword == repeatedPassword
    {
      this.username := username;
      this.email := email;
      this.password := password;
      this.repeatedPassword := repeatedPassword;
    }

    /**
     * Trims the username and e-mail in place, then returns the failure of
     * the first rule the trimmed request breaks, or `None`.
     */
    method Validate(rc: RuneClasses) returns (err: Option<ApiError>)
      modifies this
      ensures username == TrimSpace(old(username), rc.isSpace)
      ensures email == TrimSpace(old(email), rc.isSpace)
      ensures password == old(password) && repeatedPassword == old(repeatedPassword)
      ensures err == FirstFailure(Checks(username, email, password, repeatedPassword, rc))
      ensures err == SignupError(old(username), old(email), password, repeatedPassword, rc)
    {
      username := TrimSpace(username, rc.isSpace);
      email := TrimSpace(email, rc.isSpace);
      RulesInOrder(username, email, password, repeatedPassword, rc);
      if username == "" {
        return Some(ErrorUsernameIsRequired);
      }
      if email == "" {
        return Some(ErrorEmailIsRequired);
      }
      if password == "" {
        return Some(ErrorPasswordIsRequired);
      }
      if repeatedPassword == "" {
        return Some(ErrorRepeatedPasswordIsRequired);
      }
      var usernameLength := |username|;
      if usernameLength < 4 || usernameLength > 32 {
        return Some(ErrorInvalidUsernameLength);
      }
      var emailLength := |email|;
      if emailLength < 5 || emailLength > 84 {
        return Some(ErrorInvalidEmailLength);
      }
      if Count(email, '@') != 1 {
        return Some(ErrorInvalidEmail);
      }
      var passwordLength := |password|;
      if passwordLength < 8 || passwordLength > 64 {
        return Some(ErrorInvalidPasswordLength);
      }

      var badChar, hasLetter, hasDigit := ScanPassword(password, rc);
      if badChar {
        return Some(ErrorInvalidPasswordCharacter);
      }
      if !hasLetter {
        return Some(ErrorMissingUpperInPassword);
      }
      if !hasDigit {
        return Some(ErrorMissingDigitInPassword);
      }
      if password != repeatedPassword {
        return Some(ErrorPasswordsNotEqual);
      }
      return None;
    }
  }
}
