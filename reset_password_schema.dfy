/**
 * `resetPasswordSchema`: a reset carries a token, a new password strong
 * enough for `passwordSchema`, and a confirmation equal to it. The object
 * refinement runs after the field checks, whatever they found, and reports a
 * mismatch on the confirmation's path.
 */
module ResetPasswordSchema {
  import opened Common

  const PasswordMin := 8

  datatype Message = PasswordTooShort | PasswordTooWeak | TokenRequired | ConfirmRequired | PasswordsDontMatch
  {
    function Text(): string
    {
      match this
      case PasswordTooShort => "Password must be at least 8 characters long"
      case PasswordTooWeak => "Password must contain at least one uppercase letter, one lowercase letter, and one number"
      case TokenRequired => "Reset token is required"
      case ConfirmRequired => "Please confirm your password"
      case PasswordsDontMatch => "Passwords don't match"
    }
  }

  /** The characters a regex `.` does not match. */
  predicate IsLineTerminator(c: char)
  {
    c == '\n' || c == '\r' || c == '\U{2028}' || c == '\U{2029}'
  }

  /** The prefix of `s` before its first line terminator: all that `^(?=.*x)` can look at. */
  function FirstLine(s: string): (r: string)
    ensures |r| <= |s| && r == s[..|r|]
    ensures forall i :: 0 <= i < |r| ==> !IsLineTerminator(r[i])
    ensures |r| < |s| ==> IsLineTerminator(s[|r|])
  {
    if s == [] || IsLineTerminator(s[0]) then [] else [s[0]] + FirstLine(s[1..])
  }

  predicate HasLower(s: string) { exists i :: 0 <= i < |s| && 'a' <= s[i] <= 'z' }
  predicate HasUpper(s: string) { exists i :: 0 <= i < |s| && 'A' <= s[i] <= 'Z' }
  predicate HasDigit(s: string) { exists i :: 0 <= i < |s| && IsDigit(s[i]) }

  /** `/^(?=.*[a-z])(?=.*[A-Z])(?=.*\d)/`. */
  predicate StrengthPattern(p: string)
  {
    var line := FirstLine(p);
    HasLower(line) && HasUpper(line) && HasDigit(line)
  }

  function PasswordIssues(path: string, p: string): seq<Issue<Message>>
  {
    (if |p| < PasswordMin then [Issue(path, PasswordTooShort)] else [])
    + (if !StrengthPattern(p)
       then [Issue(path, PasswordTooWeak)]
       else [])
  }

  /** `passwordSchema`, on its own. */
  predicate StrongPassword(p: string)
  {
    PasswordIssues("", p) == []
  }

  datatype Reset = Reset(token: string, newPassword: string, confirmPassword: string)

  function Issues(d: Reset): seq<Issue<Message>>
  {
    (if |d.token| < 1 then [Issue("token", TokenRequired)] else [])
    + PasswordIssues("newPassword", d.newPassword)
    + (if |d.confirmPassword| < 1 then [Issue("confirmPassword", ConfirmRequired)] else [])
    + (if d.newPassword != d.confirmPassword then [Issue("confirmPassword", PasswordsDontMatch)] else [])
  }

  function Parse(d: Reset): (r: Result<Reset, seq<Issue<Message>>>)
    ensures r.Ok? <==> Issues(d) == []
    ensures r.Ok? ==> r.value == d
    ensures r.Err? ==> r.error == Issues(d)
  {
    var issues := Issues(d);
    if issues == [] then Ok(d) else Err(issues)
  }

  // ---- Properties ----

  /** A strong password: at least eight characters and, before any line break, a lower-case letter, an upper-case letter and a digit. */
  lemma StrongPasswordIff(p: string)
    ensures StrongPassword(p) <==> |p| >= PasswordMin && HasLower(FirstLine(p)) && HasUpper(FirstLine(p)) && HasDigit(FirstLine(p))
  {
  }

  /** The reset is accepted exactly when the token is present, the new password is strong and the confirmation matches it. */
  lemma AcceptedIff(d: Reset)
    ensures Parse(d).Ok? <==> |d.token| >= 1 && StrongPassword(d.newPassword) && d.confirmPassword == d.newPassword
  {
  }

  /** So an accepted confirmation is itself strong. */
  lemma AcceptedConfirmationStrong(d: Reset)
    requires Parse(d).Ok?
    ensures StrongPassword(d.confirmPassword)
  {
  }

  /** A mismatch is reported on `confirmPassword`, even when the other fields fail too. */
  lemma MismatchReportedOnConfirmation(d: Reset)
    requires d.newPassword != d.confirmPassword
    ensures Issues(d)[|Issues(d)| - 1] == Issue("confirmPassword", PasswordsDontMatch)
  {
  }

  lemma {:induction false} FirstLineStops(a: string, t: char, b: string)
    requires forall i :: 0 <= i < |a| ==> !IsLineTerminator(a[i])
    requires IsLineTerminator(t)
    ensures FirstLine(a + [t] + b) == a
  {
    if a == [] {
      assert a + [t] + b == [t] + b;
    } else {
      assert (a + [t] + b)[1..] == a[1..] + [t] + b;
      FirstLineStops(a[1..], t, b);
      assert a == [a[0]] + a[1..];
    }
  }

  /** Whatever follows the first line break is invisible to the strength pattern. */
  lemma TextAfterLineBreakIgnored(a: string, t: char, b: string)
    requires forall i :: 0 <= i < |a| ==> !IsLineTerminator(a[i])
    requires IsLineTerminator(t)
    ensures StrengthPattern(a + [t] + b) <==> HasLower(a) && HasUpper(a) && HasDigit(a)
  {
    FirstLineStops(a, t, b);
  }
}
