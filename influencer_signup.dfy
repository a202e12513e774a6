/**
 * The influencer sign-up box: its field and consent state, the early-return
 * checks of `handleSignUp`, the registration and sign-in that follow them,
 * and the birth-year options of the select.
 *
 * The current year is a parameter (the source reads the clock). The
 * registration request and `signIn` are outside the model: their results
 * are parameters, a thrown exception included.
 */
module InfluencerSignUp {
  import opened Common
  import opened InfluencerRegisterSchema
  import TermsCheckBoxes

  datatype Data = Data(firstName: string, lastName: string, email: string, password: string,
                       username: string, yearOfBirth: string, userType: string)

  const EmptyData := Data("", "", "", "", "", "", "")
  const NoConsent := Consent(false, false, false)

  /** The fixed messages of the box. */
  datatype Message =
    | MissingFields | InvalidYear | TermsRequired | ComplianceRequired | PrivacyRequired | RegistrationCrashed
    | Registered
  {
    function Text(): string
    {
      match this
      case MissingFields => "Please fill in all required fields"
      case InvalidYear => "Please enter a valid year of birth. You must be at least 13 years old."
      case TermsRequired => "Please accept the terms and conditions"
      case ComplianceRequired => "Please accept the data compliance consent"
      case PrivacyRequired => "Please accept the privacy policy"
      case RegistrationCrashed => "An error occurred during registration. Please try again."
      case Registered => "User registered successfully"
    }
  }

  datatype Page = Page(data: Data, consent: Consent, privacyPolicy: bool, error: Shown<Message>, success: Shown<Message>,
                       navigatedTo: Option<string>)

  /** The checks of `handleSignUp`, in order; `None` when all pass. */
  function Check(d: Data, c: Consent, privacyPolicy: bool, currentYear: int): (r: Option<Message>)
  {
    if d.firstName == "" || d.lastName == "" || d.email == "" || d.password == "" || d.username == ""
       || d.yearOfBirth == "" then Some(MissingFields)
    else
      var birthYear := JsParseInt(d.yearOfBirth);
      if birthYear.None? || birthYear.value < EarliestYear || birthYear.value > currentYear - MinimumAge then Some(InvalidYear)
      else if !c.termsAccepted then Some(TermsRequired)
      else if !c.dataComplianceConsent then Some(ComplianceRequired)
      else if !privacyPolicy then Some(PrivacyRequired)
      else None
  }

  /** The body sent to registration: the data with the consent object. */
  datatype Request = Request(data: Data, consent: Consent)

  /**
   * `handleSignUp`: the page afterwards and the registration request made,
   * if any. The error banner is cleared first.
   */
  function SignUpOutcome(st: Page, currentYear: int, reg: RouteResult, signIn: SignInResult): (Page, Option<Request>)
  {
    var cleared := st.(error := Nothing);
    match Check(st.data, st.consent, st.privacyPolicy, currentYear)
    case Some(m) => (cleared.(error := Fixed(m)), None)
    case None =>
      var sent := Some(Request(st.data, st.consent));
      match reg
      case RouteThrows => (cleared.(error := Fixed(RegistrationCrashed)), sent)
      case RouteBody(status, message) =>
        if status == "error" then (cleared.(error := Verbatim(message)), sent)
        else if status != "success" then (cleared, sent)
        else
          match signIn
          case SignInThrows => (cleared.(error := Fixed(RegistrationCrashed)), sent)
          case SignInUndefined => (cleared, sent)
          case SignInBody(e, ok) =>
            if e != "" then (cleared.(error := Verbatim(e)), sent)
            else if ok then (cleared.(success := Fixed(Registered), navigatedTo := Some("/influencer/additional")), sent)
            else (cleared, sent)
  }

  /** Applies the calls one checkbox change makes, with the callbacks this page passes. */
  function ApplyCall(st: Page, call: TermsCheckBoxes.Call): Page
  {
    match call
    case SetConsent(c) => st.(consent := c)
    case PrivacyPolicyChange(checked) => st.(privacyPolicy := checked, error := if checked then Nothing else st.error)
    case ErrorClear => st.(error := Nothing)
  }

  function ApplyCalls(st: Page, calls: seq<TermsCheckBoxes.Call>): Page
  {
    if calls == [] then st else ApplyCall(ApplyCalls(st, calls[..|calls| - 1]), calls[|calls| - 1])
  }

  lemma ApplyCallsSnoc(st: Page, calls: seq<TermsCheckBoxes.Call>, c: TermsCheckBoxes.Call)
    ensures ApplyCalls(st, calls + [c]) == ApplyCall(ApplyCalls(st, calls), c)
  {
    assert (calls + [c])[..|calls|] == calls;
  }

  /** The props the page gives the checkboxes: both optional callbacks are passed. */
  function BoxProps(st: Page): TermsCheckBoxes.Props
  {
    TermsCheckBoxes.Props(st.consent, st.privacyPolicy, true, true)
  }

  datatype ConsentField = TermsField | MarketingField | ComplianceField

  /** `handleConsent`: sets one consent; for the terms it also sets the privacy flag. */
  function HandleConsent(st: Page, field: ConsentField, value: bool): Page
  {
    match field
    case TermsField => st.(consent := st.consent.(termsAccepted := value), privacyPolicy := value)
    case MarketingField => st.(consent := st.consent.(marketingOptIn := value))
    case ComplianceField => st.(consent := st.consent.(dataComplianceConsent := value))
  }

  class SignUpBox {
    var data: Data
    var consent: Consent
    var privacyPolicy: bool
    var error: Shown<Message>
    var success: Shown<Message>
    var navigatedTo: Option<string>
    /** The registration requests made so far. */
    var requests: seq<Request>

    function Current(): Page
      reads this
    {
      Page(data, consent, privacyPolicy, error, success, navigatedTo)
    }

    constructor ()
      ensures Current() == Page(EmptyData, NoConsent, false, Nothing, Nothing, None) && requests == []
    {
      data := EmptyData;
      consent := NoConsent;
      privacyPolicy := false;
      error := Nothing;
      success := Nothing;
      navigatedTo := None;
      requests := [];
    }

    /** One input's `onChange`: the new data record. */
    method SetData(d: Data)
      modifies this`data
      ensures data == d
    {
      data := d;
    }

    method HandleSignUp(currentYear: int, reg: RouteResult, signIn: SignInResult)
      modifies this
      ensures Current() == SignUpOutcome(old(Current()), currentYear, reg, signIn).0
      ensures var sent := SignUpOutcome(old(Current()), currentYear, reg, signIn).1;
        requests == old(requests) + (if sent.Some? then [sent.value] else [])
    {
      error := Nothing;
      var failed := Check(data, consent, privacyPolicy, currentYear);
      if failed.Some? {
        error := Fixed(failed.value);
        return;
      }
      requests := requests + [Request(data, consent)];
      if reg.RouteThrows? {
        error := Fixed(RegistrationCrashed);
        return;
      }
      if reg.status == "error" {
        error := Verbatim(reg.message);
      } else if reg.status == "success" {
        if signIn.SignInThrows? {
          error := Fixed(RegistrationCrashed);
        } else if signIn.SignInBody? {
          if signIn.error != "" {
            error := Verbatim(signIn.error);
          } else if signIn.ok {
            success := Fixed(Registered);
            navigatedTo := Some("/influencer/additional");
          }
        }
      }
    }

    /** A checkbox change: the calls the checkbox makes, applied in order. */
    method ToggleBox(b: TermsCheckBoxes.Box, checked: bool)
      modifies this
      ensures Current() == ApplyCalls(old(Current()), TermsCheckBoxes.OnCheckedChange(BoxProps(old(Current())), b, checked))
      ensures requests == old(requests)
    {
      var calls := TermsCheckBoxes.OnCheckedChange(BoxProps(Current()), b, checked);
      ghost var start := Current();
      var i := 0;
      while i < |calls|
        invariant 0 <= i <= |calls|
        invariant Current() == ApplyCalls(start, calls[..i])
        invariant requests == old(requests)
      {
        assert calls[..i + 1][..i] == calls[..i];
        match calls[i] {
          case SetConsent(c) => consent := c;
          case PrivacyPolicyChange(v) =>
            privacyPolicy := v;
            if v {
              error := Nothing;
            }
          case ErrorClear => error := Nothing;
        }
        i := i + 1;
      }
      assert calls[..i] == calls;
    }
  }

  // ---- The birth-year options ----

  /** The select's options: from `currentYear - 13` down to 1900. */
  method YearOptions(currentYear: int) returns (years: seq<nat>)
    ensures var maxYear := currentYear - MinimumAge;
      && |years| == (if maxYear >= EarliestYear then maxYear - EarliestYear + 1 else 0)
      && forall i :: 0 <= i < |years| ==> years[i] == maxYear - i
  {
    var maxYear := currentYear - MinimumAge;
    years := [];
    var year := maxYear;
    while year >= EarliestYear
      invariant year <= maxYear
      invariant maxYear >= EarliestYear ==> year >= EarliestYear - 1
      invariant maxYear < EarliestYear ==> year == maxYear
      invariant |years| == maxYear - year
      invariant forall i :: 0 <= i < |years| ==> years[i] == maxYear - i
      decreases year
    {
      years := years + [year];
      year := year - 1;
    }
  }

  // ---- Properties ----

  /** A missing required field is reported before the year and the consents are looked at. */
  lemma MissingFieldReportedFirst(d: Data, c: Consent, privacyPolicy: bool, currentYear: int)
    requires d.firstName == "" || d.lastName == "" || d.email == "" || d.password == "" || d.username == "" || d.yearOfBirth == ""
    ensures Check(d, c, privacyPolicy, currentYear) == Some(MissingFields)
  {
  }

  /** The year check of the box is the schema's: `parseInt` gives a number in [1900, currentYear - 13]. */
  lemma YearCheckMatchesSchema(d: Data, c: Consent, privacyPolicy: bool, currentYear: int)
    requires d.firstName != "" && d.lastName != "" && d.email != "" && d.password != "" && d.username != "" && d.yearOfBirth != ""
    ensures Check(d, c, privacyPolicy, currentYear) == Some(InvalidYear) <==> !YearOk(d.yearOfBirth, currentYear)
  {
  }

  /** The consents are checked in the order terms, data compliance, privacy policy. */
  lemma ConsentOrder(d: Data, c: Consent, privacyPolicy: bool, currentYear: int)
    requires Check(d, c, privacyPolicy, currentYear) != Some(MissingFields)
    requires Check(d, c, privacyPolicy, currentYear) != Some(InvalidYear)
    ensures !c.termsAccepted ==> Check(d, c, privacyPolicy, currentYear) == Some(TermsRequired)
    ensures c.termsAccepted && !c.dataComplianceConsent ==> Check(d, c, privacyPolicy, currentYear) == Some(ComplianceRequired)
    ensures c.termsAccepted && c.dataComplianceConsent && !privacyPolicy ==> Check(d, c, privacyPolicy, currentYear) == Some(PrivacyRequired)
  {
  }

  /** Registration is requested exactly when every check passes; marketing consent is never needed. */
  lemma RegistrationOnlyWhenValid(st: Page, currentYear: int, reg: RouteResult, signIn: SignInResult)
    ensures var (after, sent) := SignUpOutcome(st, currentYear, reg, signIn);
      && (sent.Some? <==>
            && st.data.firstName != "" && st.data.lastName != "" && st.data.email != "" && st.data.password != ""
            && st.data.username != "" && YearOk(st.data.yearOfBirth, currentYear)
            && st.consent.termsAccepted && st.consent.dataComplianceConsent && st.privacyPolicy)
      && (sent.Some? ==> sent.value == Request(st.data, st.consent))
      && (sent.None? ==> after == st.(error := Fixed(Check(st.data, st.consent, st.privacyPolicy, currentYear).value)))
  {
  }

  lemma MarketingNeverRequired(d: Data, c: Consent, privacyPolicy: bool, currentYear: int, b: bool)
    ensures Check(d, c.(marketingOptIn := b), privacyPolicy, currentYear) == Check(d, c, privacyPolicy, currentYear)
  {
  }

  /** A successful registration and sign-in shows the success text and moves on; nothing else does. */
  lemma NavigatesOnlyAfterSignIn(st: Page, currentYear: int, reg: RouteResult, signIn: SignInResult)
    requires st.navigatedTo.None?
    ensures var after := SignUpOutcome(st, currentYear, reg, signIn).0;
      after.navigatedTo.Some? <==>
        && Check(st.data, st.consent, st.privacyPolicy, currentYear).None?
        && reg.RouteBody? && reg.status == "success"
        && signIn.SignInBody? && signIn.error == "" && signIn.ok
  {
  }

  /** `handleConsent` on the terms also sets the privacy flag; any other field changes only itself. */
  lemma HandleConsentEffect(st: Page, field: ConsentField, value: bool)
    ensures var r := HandleConsent(st, field, value);
      && r.data == st.data && r.error == st.error
      && (field == TermsField ==>
            r.consent == st.consent.(termsAccepted := value) && r.privacyPolicy == value)
      && (field == MarketingField ==>
            r.consent == st.consent.(marketingOptIn := value) && r.privacyPolicy == st.privacyPolicy)
      && (field == ComplianceField ==>
            r.consent == st.consent.(dataComplianceConsent := value) && r.privacyPolicy == st.privacyPolicy)
  {
  }

  /**
   * The checkboxes get the state setter, not `handleConsent`: ticking the
   * terms box alone leaves the privacy flag as it was.
   */
  lemma TermsBoxLeavesPrivacy(st: Page, checked: bool)
    ensures var r := ApplyCalls(st, TermsCheckBoxes.OnCheckedChange(BoxProps(st), TermsCheckBoxes.Terms, checked));
      && r.privacyPolicy == st.privacyPolicy && r.consent.termsAccepted == checked && r.error == Nothing
  {
    var calls := TermsCheckBoxes.OnCheckedChange(BoxProps(st), TermsCheckBoxes.Terms, checked);
    assert calls == [TermsCheckBoxes.SetConsent(st.consent.(termsAccepted := checked)), TermsCheckBoxes.ErrorClear];
    ApplyCallsSnoc(st, [], calls[0]);
    assert [] + [calls[0]] == [calls[0]];
    ApplyCallsSnoc(st, [calls[0]], calls[1]);
    assert [calls[0]] + [calls[1]] == calls;
  }

  /** "Accept all" sets the three consents and the privacy flag and clears the error. */
  lemma AcceptAllPassesConsentChecks(st: Page, checked: bool)
    ensures var r := ApplyCalls(st, TermsCheckBoxes.OnCheckedChange(BoxProps(st), TermsCheckBoxes.AcceptAll, checked));
      r.consent == Consent(checked, checked, checked) && r.privacyPolicy == checked && r.error == Nothing
  {
    var a := TermsCheckBoxes.SetConsent(Consent(checked, checked, checked));
    var b := TermsCheckBoxes.PrivacyPolicyChange(checked);
    var c := TermsCheckBoxes.ErrorClear;
    assert TermsCheckBoxes.OnCheckedChange(BoxProps(st), TermsCheckBoxes.AcceptAll, checked) == [a, b, c];
    ApplyCallsSnoc(st, [], a);
    assert [] + [a] == [a];
    var s1 := ApplyCall(st, a);
    ApplyCallsSnoc(st, [a], b);
    assert [a] + [b] == [a, b];
    var s2 := ApplyCall(s1, b);
    ApplyCallsSnoc(st, [a, b], c);
    assert [a, b] + [c] == [a, b, c];
    assert ApplyCalls(st, [a, b, c]) == ApplyCall(s2, c);
  }

  /** With the consents given, only a missing field or a bad year can stop the sign-up. */
  lemma ConsentsGivenLeaveDataChecks(d: Data, c: Consent, currentYear: int)
    requires c.termsAccepted && c.dataComplianceConsent
    ensures var r := Check(d, c, true, currentYear);
      r == None || r == Some(MissingFields) || r == Some(InvalidYear)
  {
  }

  /** Every listed year is distinct, lies in the window, and passes the year check when selected. */
  lemma YearOptionsPass(currentYear: int, years: seq<nat>, i: nat, j: nat)
    requires var maxYear := currentYear - MinimumAge;
      && |years| == (if maxYear >= EarliestYear then maxYear - EarliestYear + 1 else 0)
      && forall k :: 0 <= k < |years| ==> years[k] == maxYear - k
    requires i < j < |years|
    ensures years[i] > years[j]
    ensures EarliestYear <= years[i] <= currentYear - MinimumAge
    ensures YearOk(NatToDecimal(years[i]), currentYear)
  {
    JsParseIntOfDecimal(years[i], "");
    assert NatToDecimal(years[i]) + "" == NatToDecimal(years[i]);
  }
}
