/**
 * `brandFormDataSchema`: every field of a brand's profile update is
 * optional; a field that is present must meet its rule. The website and the
 * phone number also accept the empty string. Zod's `.email()` and `.url()`
 * are the parameters `isEmail` and `isUrl`.
 */
module BrandUpdateSchema {
  import opened Common
  import InfluencerUpdateSchema

  const PasswordMin := 8

  /** The schema's messages. */
  datatype Message =
    | FirstNameRequired
    | LastNameRequired
    | UsernameRequired
    | CompanyNameRequired
    | WebsiteInvalid
    | EmailInvalid
    | PasswordTooShort
    | PositionRequired
    | PhoneInvalid
    | BusinessTypeRequired
  {
    function Text(): string
    {
      match this
      case FirstNameRequired => "First name is required"
      case LastNameRequired => "Last name is required"
      case UsernameRequired => "Username is required"
      case CompanyNameRequired => "Company name is required"
      case WebsiteInvalid => "Invalid company website URL"
      case EmailInvalid => "Invalid email address"
      case PasswordTooShort => "Password must be at least 8 characters"
      case PositionRequired => "Position is required"
      case PhoneInvalid => "Invalid phone number"
      case BusinessTypeRequired => "Business type is required"
    }
  }

  datatype Update = Update(firstName: Option<string>, lastName: Option<string>, username: Option<string>,
                           companyName: Option<string>, companyWebsite: Option<string>, email: Option<string>,
                           password: Option<string>, position: Option<string>, logo: Option<string>,
                           industry: Option<string>, phoneNumber: Option<string>, campaigns: Option<seq<string>>,
                           businessType: Option<string>, bio: Option<string>)

  /** The update with no field present. */
  const Empty := Update(None, None, None, None, None, None, None, None, None, None, None, None, None, None)

  /** `/^\+?[1-9]\d{1,14}$/` on the raw value: 2 to 15 digits, no formatting characters. */
  predicate PhonePattern(v: string)
  {
    InfluencerUpdateSchema.IntlNumber(v, 1, 14)
  }

  /** A present field with a `min(n)` check. */
  function MinIssue(path: string, v: Option<string>, n: nat, message: Message): seq<Issue<Message>>
  {
    if v.Some? && |v.value| < n then [Issue(path, message)] else []
  }

  /**
   * `x.optional().or(z.literal(""))`: absent, or passing `ok`, or "". A value
   * failing both alternatives reports the first alternative's message.
   */
  function OrEmptyIssue(path: string, v: Option<string>, ok: string -> bool, message: Message): seq<Issue<Message>>
  {
    if v.Some? && !ok(v.value) && v.value != "" then [Issue(path, message)] else []
  }

  function Issues(d: Update, isEmail: string -> bool, isUrl: string -> bool): seq<Issue<Message>>
  {
    MinIssue("firstName", d.firstName, 1, FirstNameRequired)
    + MinIssue("lastName", d.lastName, 1, LastNameRequired)
    + MinIssue("username", d.username, 1, UsernameRequired)
    + MinIssue("companyName", d.companyName, 1, CompanyNameRequired)
    + OrEmptyIssue("companyWebsite", d.companyWebsite, isUrl, WebsiteInvalid)
    + (if d.email.Some? && !isEmail(d.email.value) then [Issue("email", EmailInvalid)] else [])
    + MinIssue("password", d.password, PasswordMin, PasswordTooShort)
    + MinIssue("position", d.position, 1, PositionRequired)
    + OrEmptyIssue("phoneNumber", d.phoneNumber, PhonePattern, PhoneInvalid)
    + MinIssue("businessType", d.businessType, 1, BusinessTypeRequired)
  }

  function Parse(d: Update, isEmail: string -> bool, isUrl: string -> bool): (r: Result<Update, seq<Issue<Message>>>)
    ensures r.Ok? <==> Issues(d, isEmail, isUrl) == []
    ensures r.Ok? ==> r.value == d
    ensures r.Err? ==> r.error == Issues(d, isEmail, isUrl)
  {
    var issues := Issues(d, isEmail, isUrl);
    if issues == [] then Ok(d) else Err(issues)
  }

  /** A present field is non-empty. */
  predicate PresentNonEmpty(v: Option<string>)
  {
    v.None? || v.value != ""
  }

  // ---- Properties ----

  /** The rule set field by field: a present field meets its own rule. */
  lemma AcceptedIff(d: Update, isEmail: string -> bool, isUrl: string -> bool)
    ensures Parse(d, isEmail, isUrl).Ok? <==>
      && PresentNonEmpty(d.firstName) && PresentNonEmpty(d.lastName) && PresentNonEmpty(d.username)
      && PresentNonEmpty(d.companyName) && PresentNonEmpty(d.position) && PresentNonEmpty(d.businessType)
      && (d.companyWebsite.None? || d.companyWebsite.value == "" || isUrl(d.companyWebsite.value))
      && (d.email.None? || isEmail(d.email.value))
      && (d.password.None? || |d.password.value| >= PasswordMin)
      && (d.phoneNumber.None? || d.phoneNumber.value == "" || PhonePattern(d.phoneNumber.value))
  {
  }

  /** The empty update validates, whatever the email and URL checks say. */
  lemma EmptyValidates(isEmail: string -> bool, isUrl: string -> bool)
    ensures Parse(Empty, isEmail, isUrl) == Ok(Empty)
  {
  }

  /** An empty website or phone number is accepted even though neither pattern matches "". */
  lemma EmptyLiteralsAccepted(d: Update, isEmail: string -> bool, isUrl: string -> bool)
    ensures !PhonePattern("")
    ensures Parse(d.(companyWebsite := Some(""), phoneNumber := Some("")), isEmail, isUrl).Ok?
            == Parse(d.(companyWebsite := None, phoneNumber := None), isEmail, isUrl).Ok?
  {
  }

  /** The brand pattern is looser than the influencer rule: two digits are enough. */
  lemma ShortPhoneAccepted()
    ensures PhonePattern("12") && !InfluencerUpdateSchema.PhoneFormatOk("12")
  {
    assert InfluencerUpdateSchema.Cleaned("12") == "12";
  }

  /** But the raw value is not cleaned: a space, dash or parenthesis fails it. */
  lemma FormattedPhoneRejected(v: string, k: nat)
    requires k < |v| && !IsDigit(v[k]) && v[k] != '+'
    ensures !PhonePattern(v)
  {
    if |v| > 0 && v[0] == '+' {
      assert v[1..][k - 1] == v[k];
    }
  }

  /** Every present password shorter than eight characters is reported on its own path. */
  lemma ShortPasswordReported(d: Update, isEmail: string -> bool, isUrl: string -> bool)
    requires d.password.Some? && |d.password.value| < PasswordMin
    ensures Issue("password", PasswordTooShort) in Issues(d, isEmail, isUrl)
  {
  }
}
