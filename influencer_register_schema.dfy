/**
 * `influencerRegisterSchema`: what an influencer's sign-up record must
 * meet. The year of birth is a string read with JavaScript `parseInt`, so a
 * numeric prefix is enough. The current year is a parameter (the source
 * reads the clock), and Zod's `.email()` is the parameter `isEmail`.
 */
module InfluencerRegisterSchema {
  import opened Common

  const EarliestYear := 1900
  const MinimumAge := 13
  const UsernameMin := 3
  const PasswordMin := 6

  /** The schema's messages; `TooShort(n)` is Zod's default for a failed `min(n)`. */
  datatype Message = TooShort(n: nat) | EmailInvalid | UsernameTooShort | UsernameChars | YearInvalid
  {
    function Text(): string
    {
      match this
      case TooShort(n) => "String must contain at least " + NatToDecimal(n) + " character(s)"
      case EmailInvalid => "Invalid email"
      case UsernameTooShort => "Please make sure that username is no shorter than 3 characters"
      case UsernameChars => "Allowed characters are letters, numbers and underscore(_) and dash(-)"
      case YearInvalid => "Please enter a valid year of birth. You must be at least 13 years old."
    }
  }

  predicate UsernameChar(c: char) { IsAsciiLetter(c) || IsDigit(c) || c == '_' || c == '-' }

  /** `/^[a-zA-Z0-9_-]+$/`. */
  predicate UsernamePattern(u: string)
  {
    |u| > 0 && forall i :: 0 <= i < |u| ==> UsernameChar(u[i])
  }

  /** The year refinement: `parseInt` gives a number in [1900, currentYear - 13]. */
  predicate YearOk(val: string, currentYear: int)
  {
    var year := JsParseInt(val);
    year.Some? && EarliestYear <= year.value <= currentYear - MinimumAge
  }

  datatype Consent = Consent(termsAccepted: bool, marketingOptIn: bool, dataComplianceConsent: bool)

  datatype Registration = Registration(firstName: string, lastName: string, email: string, password: string,
                                       username: string, yearOfBirth: string,
                                       consentAndAgreements: Option<Consent>)

  function Issues(d: Registration, isEmail: string -> bool, currentYear: int): seq<Issue<Message>>
  {
    (if |d.firstName| < 1 then [Issue("firstName", TooShort(1))] else [])
    + (if |d.lastName| < 1 then [Issue("lastName", TooShort(1))] else [])
    + (if !isEmail(d.email) then [Issue("email", EmailInvalid)] else [])
    + (if |d.password| < PasswordMin then [Issue("password", TooShort(PasswordMin))] else [])
    + (if |d.username| < UsernameMin
       then [Issue("username", UsernameTooShort)] else [])
    + (if !UsernamePattern(d.username)
       then [Issue("username", UsernameChars)] else [])
    + (if !YearOk(d.yearOfBirth, currentYear)
       then [Issue("yearOfBirth", YearInvalid)] else [])
  }

  function Parse(d: Registration, isEmail: string -> bool, currentYear: int): (r: Result<Registration, seq<Issue<Message>>>)
    ensures r.Ok? <==> Issues(d, isEmail, currentYear) == []
    ensures r.Ok? ==> r.value == d
    ensures r.Err? ==> r.error == Issues(d, isEmail, currentYear)
  {
    var issues := Issues(d, isEmail, currentYear);
    if issues == [] then Ok(d) else Err(issues)
  }

  // ---- Properties ----

  /** The rule set field by field; the consent object, present or not, never matters. */
  lemma AcceptedIff(d: Registration, isEmail: string -> bool, currentYear: int)
    ensures Parse(d, isEmail, currentYear).Ok? <==>
      && |d.firstName| >= 1 && |d.lastName| >= 1 && isEmail(d.email) && |d.password| >= PasswordMin
      && |d.username| >= UsernameMin && UsernamePattern(d.username) && YearOk(d.yearOfBirth, currentYear)
    ensures forall c :: Parse(d.(consentAndAgreements := c), isEmail, currentYear).Ok? == Parse(d, isEmail, currentYear).Ok?
  {
  }

  /** A year written in decimal, with any tail that cannot extend the numeral, is accepted iff it lies in the window. */
  lemma YearWindow(year: nat, tail: string, currentYear: int)
    requires EndsNumeral(tail)
    ensures YearOk(NatToDecimal(year) + tail, currentYear) <==> EarliestYear <= year <= currentYear - MinimumAge
  {
    JsParseIntOfDecimal(year, tail);
  }

  /** `"1990abc"` passes because `parseInt` only reads the digits. */
  lemma DigitPrefixAccepted(currentYear: int)
    requires currentYear >= 1990 + MinimumAge
    ensures YearOk("1990abc", currentYear)
  {
    assert NatToDecimal(1) == "1";
    assert NatToDecimal(19) == NatToDecimal(1) + "9";
    assert NatToDecimal(199) == NatToDecimal(19) + "9";
    assert NatToDecimal(1990) == NatToDecimal(199) + "0";
    assert NatToDecimal(1990) + "abc" == "1990abc";
    JsParseIntOfDecimal(1990, "abc");
  }

  /** A value that starts with a letter is `NaN` and fails. */
  lemma LetterPrefixRejected(val: string, currentYear: int)
    requires val != [] && IsAsciiLetter(val[0])
    ensures !YearOk(val, currentYear)
  {
    JsParseIntOfLetter(val);
  }

  /** Any length of username from three up is accepted: there is no upper bound. */
  lemma NoUsernameUpperBound(u: string, extra: string)
    requires |u| >= UsernameMin && UsernamePattern(u) && UsernamePattern(extra)
    ensures UsernamePattern(u + extra) && |u + extra| >= UsernameMin
  {
    assert forall i :: 0 <= i < |u + extra| ==> (u + extra)[i] == (if i < |u| then u[i] else extra[i - |u|]);
  }
}
