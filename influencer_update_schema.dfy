/**
 * `influencerFullUpdateDataSchema`: the rules an influencer's full profile
 * update must meet. A field's checks all run and each failed one adds its
 * message, in the order the schema lists them; the record is accepted iff
 * no check fails. Zod's `.email()` is the parameter `isEmail`.
 */
module InfluencerUpdateSchema {
  import opened Common

  const NameMax := 50
  const UsernameMin := 3
  const UsernameMax := 30

  /** The characters `/[^\d+]/g` keeps: ASCII digits and `+`. */
  predicate PhoneKept(c: char) { IsDigit(c) || c == '+' }

  /** `value.replace(/[^\d+]/g, '')`. */
  function Cleaned(value: string): (r: string)
    ensures forall i :: 0 <= i < |r| ==> PhoneKept(r[i])
    ensures |r| <= |value|
  {
    if value == [] then [] else (if PhoneKept(value[0]) then [value[0]] else []) + Cleaned(value[1..])
  }

  /**
   * `/^\+?[1-9]\d{minRest,maxRest}$/`: an optional `+`, then a digit 1-9, then
   * between `minRest` and `maxRest` more digits and nothing else.
   */
  predicate IntlNumber(s: string, minRest: nat, maxRest: nat)
  {
    var body := if |s| > 0 && s[0] == '+' then s[1..] else s;
    && |body| >= 1 && '1' <= body[0] <= '9' && AllDigits(body)
    && minRest <= |body| - 1 <= maxRest
  }

  /** The phone refinement: the cleaned value is an international number of 7 to 15 digits. */
  predicate PhoneFormatOk(value: string)
  {
    IntlNumber(Cleaned(value), 6, 14)
  }

  /** The schema's messages. */
  datatype Message =
    | FirstNameRequired
    | FirstNameTooLong
    | LastNameRequired
    | LastNameTooLong
    | EmailInvalid
    | EmailRequired
    | UsernameRequired
    | UsernameTooShort
    | UsernameTooLong
    | UsernameChars
    | PhoneRequired
    | PhoneInvalid
    | CountryRequired
    | CityRequired
    | PrimaryNicheRequired
    | SpecialisationRequired
  {
    function Text(): string
    {
      match this
      case FirstNameRequired => "First name is required"
      case FirstNameTooLong => "First name must be less than 50 characters"
      case LastNameRequired => "Last name is required"
      case LastNameTooLong => "Last name must be less than 50 characters"
      case EmailInvalid => "Please enter a valid email address (e.g., user@example.com)"
      case EmailRequired => "Email is required"
      case UsernameRequired => "Username is required"
      case UsernameTooShort => "Username must be at least 3 characters"
      case UsernameTooLong => "Username must be less than 30 characters"
      case UsernameChars => "Username can only contain letters, numbers, and underscores"
      case PhoneRequired => "Phone number is required"
      case PhoneInvalid => "Please enter a valid phone number (e.g., +1234567890 or 1234567890)"
      case CountryRequired => "Please select your country"
      case CityRequired => "Please select your city/state"
      case PrimaryNicheRequired => "Please select your primary niche"
      case SpecialisationRequired => "Please select your content specialisation"
    }
  }

  predicate WordChar(c: char) { IsAsciiLetter(c) || IsDigit(c) || c == '_' }

  /** `/^[a-zA-Z0-9_]+$/`. */
  predicate UsernamePattern(u: string)
  {
    |u| > 0 && forall i :: 0 <= i < |u| ==> WordChar(u[i])
  }

  function When(failed: bool, path: string, message: Message): seq<Issue<Message>>
  {
    if failed then [Issue(path, message)] else []
  }

  function NameIssues(path: string, v: string, required: Message, tooLong: Message): seq<Issue<Message>>
  {
    When(|v| < 1, path, required) + When(|v| > NameMax, path, tooLong)
  }

  function EmailIssues(v: string, isEmail: string -> bool): seq<Issue<Message>>
  {
    When(!isEmail(v), "email", EmailInvalid)
    + When(|v| < 1, "email", EmailRequired)
  }

  function UsernameIssues(u: string): seq<Issue<Message>>
  {
    When(|u| < 1, "username", UsernameRequired)
    + When(|u| < UsernameMin, "username", UsernameTooShort)
    + When(|u| > UsernameMax, "username", UsernameTooLong)
    + When(!UsernamePattern(u), "username", UsernameChars)
  }

  /** `phoneNumberSchema`: the refinement runs even when the value is empty. */
  function PhoneIssues(path: string, v: string): seq<Issue<Message>>
  {
    When(|v| < 1, path, PhoneRequired)
    + When(!PhoneFormatOk(v), path, PhoneInvalid)
  }

  datatype Update = Update(firstName: string, lastName: string, email: string, username: string,
                           phoneNumber: string, country: string, city: string, personalBio: Option<string>,
                           primaryNiche: string, secondaryNiche: Option<string>, contentSpecialisation: string,
                           brandGifting: bool, paidCollaborationsOnly: bool, termsAccepted: bool,
                           marketingOptIn: bool, dataComplianceConsent: bool)

  function Issues(d: Update, isEmail: string -> bool): seq<Issue<Message>>
  {
    NameIssues("firstName", d.firstName, FirstNameRequired, FirstNameTooLong)
    + NameIssues("lastName", d.lastName, LastNameRequired, LastNameTooLong)
    + EmailIssues(d.email, isEmail)
    + UsernameIssues(d.username)
    + PhoneIssues("phoneNumber", d.phoneNumber)
    + When(|d.country| < 1, "location.country", CountryRequired)
    + When(|d.city| < 1, "location.city", CityRequired)
    + When(|d.primaryNiche| < 1, "contentAndAudience.primaryNiche", PrimaryNicheRequired)
    + When(|d.contentSpecialisation| < 1, "contentAndAudience.contentSpecialisation",
           SpecialisationRequired)
  }

  /** What `safeParse` returns: the record itself, or every issue found. */
  function Parse(d: Update, isEmail: string -> bool): (r: Result<Update, seq<Issue<Message>>>)
    ensures r.Ok? <==> Issues(d, isEmail) == []
    ensures r.Ok? ==> r.value == d
    ensures r.Err? ==> r.error == Issues(d, isEmail)
  {
    var issues := Issues(d, isEmail);
    if issues == [] then Ok(d) else Err(issues)
  }

  // ---- Properties ----

  /** The rule set, stated field by field: the record is accepted exactly when each field meets its own rule. */
  lemma AcceptedIff(d: Update, isEmail: string -> bool)
    ensures Parse(d, isEmail).Ok? <==>
      && 1 <= |d.firstName| <= NameMax && 1 <= |d.lastName| <= NameMax
      && isEmail(d.email) && |d.email| >= 1
      && UsernameMin <= |d.username| <= UsernameMax && UsernamePattern(d.username)
      && |d.phoneNumber| >= 1 && PhoneFormatOk(d.phoneNumber)
      && |d.country| >= 1 && |d.city| >= 1 && |d.primaryNiche| >= 1 && |d.contentSpecialisation| >= 1
  {
  }

  /** The optional fields and the booleans never affect acceptance. */
  lemma OptionalFieldsFree(d: Update, isEmail: string -> bool, bio: Option<string>, second: Option<string>, b: bool)
    ensures Parse(d.(personalBio := bio, secondaryNiche := second, brandGifting := b,
                     paidCollaborationsOnly := b, termsAccepted := b, marketingOptIn := b,
                     dataComplianceConsent := b), isEmail).Ok?
            == Parse(d, isEmail).Ok?
  {
  }

  lemma {:induction false} CleanedAppend(a: string, b: string)
    ensures Cleaned(a + b) == Cleaned(a) + Cleaned(b)
  {
    if a == [] {
      assert a + b == b;
    } else {
      assert (a + b)[1..] == a[1..] + b;
      CleanedAppend(a[1..], b);
    }
  }

  /** Spaces, dashes, parentheses and any other character outside digits and `+` do not change the phone verdict. */
  lemma FormattingIgnored(a: string, c: char, b: string)
    requires !PhoneKept(c)
    ensures PhoneFormatOk(a + [c] + b) == PhoneFormatOk(a + b)
  {
    CleanedAppend(a + [c], b);
    CleanedAppend(a, [c]);
    CleanedAppend(a, b);
    assert [c][1..] == [];
    assert Cleaned([c]) == [];
    assert Cleaned(a + [c] + b) == Cleaned(a) + Cleaned(b);
  }

  /** A `+` anywhere but first survives cleaning and makes the number invalid. */
  lemma {:induction false} InnerPlusRejected(value: string, k: nat)
    requires 0 < k < |Cleaned(value)| && Cleaned(value)[k] == '+'
    ensures !PhoneFormatOk(value)
  {
    var s := Cleaned(value);
    if s[0] == '+' {
      assert s[1..][k - 1] == '+';
      assert !IsDigit(s[1..][k - 1]);
    } else {
      assert !IsDigit(s[k]);
    }
  }

  /** An accepted phone number holds between 7 and 15 digits and starts, after any `+`, with 1-9. */
  lemma AcceptedPhoneDigits(value: string)
    requires PhoneFormatOk(value)
    ensures var s := Cleaned(value); var body := if s[0] == '+' then s[1..] else s;
      7 <= |body| <= 15 && body[0] != '0' && AllDigits(body)
  {
  }

  /** An accepted phone number that is already clean also passes the looser brand pattern (2 to 15 digits, no cleaning). */
  lemma CleanPhonePassesBrandPattern(value: string)
    requires PhoneFormatOk(value) && Cleaned(value) == value
    ensures IntlNumber(value, 1, 14)
  {
  }

  /** A username at either length bound is accepted, and one outside them is not. */
  lemma UsernameBounds(u: string)
    requires forall i :: 0 <= i < |u| ==> WordChar(u[i])
    ensures UsernameIssues(u) == [] <==> UsernameMin <= |u| <= UsernameMax
  {
  }
}
