/**
 * The brand sign-up box: a three-step form whose `next` validates the
 * current step's fields, a `prev` that never leaves the first step, the
 * consent gate of `handleSignUp`, and the registration and sign-in that
 * follow it. The form library's field validation is the schema below; the
 * email format is the parameter `isEmail`. Registration and `signIn` are
 * outside the model and their results are parameters.
 */
module BrandSignUp {
  import opened Common
  import InfluencerRegisterSchema
  import TermsCheckBoxes

  type Consent = InfluencerRegisterSchema.Consent

  const LastStep := 2
  const PasswordMin := 6

  /** The inputs the form holds. The consent object is never registered with the form, so it is `None` there. */
  datatype Inputs = Inputs(firstName: string, lastName: string, email: string, password: string,
                           companyName: string, position: string, username: string,
                           consentAndAgreements: Option<Consent>)

  /** The names a step can ask the form to validate; `phoneNumber` is not in the schema. */
  datatype Field = FirstName | LastName | Email | Password | CompanyName | Position | Username | PhoneNumber

  datatype Message =
    | FirstNameRequired | LastNameRequired | EmailInvalid | PasswordTooShort | CompanyNameRequired
    | PositionRequired | UsernameRequired | ConsentMissing
    | ConsentRequired | Unexpected | Registered
  {
    function Text(): string
    {
      match this
      case FirstNameRequired => "First name is required"
      case LastNameRequired => "Last name is required"
      case EmailInvalid => "Please enter a valid email address"
      case PasswordTooShort => "Password must be at least 6 characters"
      case CompanyNameRequired => "Company name is required"
      case PositionRequired => "Position is required"
      case UsernameRequired => "Username is required"
      case ConsentMissing => "Required"
      case ConsentRequired => "You must accept the privacy policy, terms and data compliance consent to register."
      case Unexpected => "An unexpected error occurred."
      case Registered => "Brand registered successfully! Redirecting..."
    }
  }

  /** The schema's message for one field, if that field fails. */
  function FieldIssue(d: Inputs, f: Field, isEmail: string -> bool): Option<Message>
  {
    match f
    case FirstName => if |d.firstName| < 1 then Some(FirstNameRequired) else None
    case LastName => if |d.lastName| < 1 then Some(LastNameRequired) else None
    case Email => if !isEmail(d.email) then Some(EmailInvalid) else None
    case Password => if |d.password| < PasswordMin then Some(PasswordTooShort) else None
    case CompanyName => if |d.companyName| < 1 then Some(CompanyNameRequired) else None
    case Position => if |d.position| < 1 then Some(PositionRequired) else None
    case Username => if |d.username| < 1 then Some(UsernameRequired) else None
    case PhoneNumber => None
  }

  const SchemaFields := [FirstName, LastName, Email, Password, CompanyName, Position, Username]

  function FieldName(f: Field): string
  {
    match f
    case FirstName => "firstName"
    case LastName => "lastName"
    case Email => "email"
    case Password => "password"
    case CompanyName => "companyName"
    case Position => "position"
    case Username => "username"
    case PhoneNumber => "phoneNumber"
  }

  function FieldIssues(d: Inputs, fields: seq<Field>, isEmail: string -> bool): seq<Issue<Message>>
  {
    if fields == [] then []
    else
      var rest := FieldIssues(d, fields[1..], isEmail);
      match FieldIssue(d, fields[0], isEmail)
      case Some(m) => [Issue(FieldName(fields[0]), m)] + rest
      case None => rest
  }

  /** `FormDataSchema`: the field issues in declaration order, then a missing consent object. */
  function Issues(d: Inputs, isEmail: string -> bool): seq<Issue<Message>>
  {
    FieldIssues(d, SchemaFields, isEmail)
    + (if d.consentAndAgreements.None? then [Issue("consentAndAgreements", ConsentMissing)] else [])
  }

  /** The fields each step's `next` validates. */
  function StepFields(step: int): seq<Field>
  {
    if step == 0 then [FirstName, LastName, Email, Password]
    else if step == 1 then [PhoneNumber, CompanyName, Position]
    else []
  }

  /** `trigger(fields)`: true when none of the listed fields has an error. */
  predicate Trigger(d: Inputs, fields: seq<Field>, isEmail: string -> bool)
  {
    forall i :: 0 <= i < |fields| ==> FieldIssue(d, fields[i], isEmail).None?
  }

  /** The step pair `(currentStep, previousStep)` after `next`. */
  function NextOutcome(current: int, previous: int, d: Inputs, isEmail: string -> bool): (int, int)
  {
    if !Trigger(d, StepFields(current), isEmail) then (current, previous)
    else if current < LastStep then (current + 1, current)
    else (current, previous)
  }

  /** The step pair after `prev`. */
  function PrevOutcome(current: int, previous: int): (int, int)
  {
    if current > 0 then (current - 1, current) else (current, previous)
  }

  /** The registration body: the form values, the consents, and a privacy flag copied from the terms. */
  datatype Request = Request(firstName: string, lastName: string, companyName: string, email: string,
                             position: string, password: string, consent: Consent, privacyPolicy: bool,
                             username: string)

  datatype Page = Page(error: Shown<Message>, success: Shown<Message>, isLoading: bool, navigatedTo: Option<string>)

  predicate ConsentGate(c: Consent)
  {
    c.termsAccepted && c.dataComplianceConsent
  }

  /** The submit button's `disabled`. */
  predicate SubmitDisabled(c: Consent, isLoading: bool)
  {
    !c.termsAccepted || !c.dataComplianceConsent || isLoading
  }

  function RequestOf(d: Inputs, c: Consent): Request
  {
    Request(d.firstName, d.lastName, d.companyName, d.email, d.position, d.password, c, c.termsAccepted, d.username)
  }

  /** `handleSignUp` run to its end: the page afterwards and the request made, if any. */
  function SignUpOutcome(st: Page, d: Inputs, c: Consent, reg: RouteResult, signIn: SignInResult): (Page, Option<Request>)
  {
    if !ConsentGate(c) then (st.(error := Fixed(ConsentRequired)), None)
    else
      var sent := Some(RequestOf(d, c));
      var base := st.(error := Nothing, isLoading := false);
      match reg
      case RouteThrows => (base.(error := Fixed(Unexpected)), sent)
      case RouteBody(status, message) =>
        if status == "error" then (base.(error := Verbatim(message)), sent)
        else if status != "success" then (base, sent)
        else
          match signIn
          case SignInThrows => (base.(error := Fixed(Unexpected)), sent)
          case SignInUndefined => (base, sent)
          case SignInBody(e, ok) =>
            if e != "" then (base.(error := Verbatim(e)), sent)
            else if ok then (base.(success := Fixed(Registered), navigatedTo := Some("/brand/moreInfo")), sent)
            else (base, sent)
  }

  /** The checkbox props on this page: no privacy flag and no privacy callback, but an error-clear callback. */
  function BoxProps(c: Consent): TermsCheckBoxes.Props
  {
    TermsCheckBoxes.Props(c, false, false, true)
  }

  class SignUpBox {
    var currentStep: int
    var previousStep: int
    var consent: Consent
    var error: Shown<Message>
    var success: Shown<Message>
    var isLoading: bool
    var navigatedTo: Option<string>
    var requests: seq<Request>

    predicate Valid()
      reads this
    {
      0 <= currentStep <= LastStep && 0 <= previousStep <= LastStep
    }

    function Current(): Page
      reads this
    {
      Page(error, success, isLoading, navigatedTo)
    }

    /** The direction of the last move, used for the slide animation. */
    function Delta(): int
      reads this
    {
      currentStep - previousStep
    }

    constructor ()
      ensures Valid() && currentStep == 0 && previousStep == 0
      ensures consent == InfluencerRegisterSchema.Consent(false, false, false) && Current() == Page(Nothing, Nothing, false, None)
      ensures requests == []
    {
      currentStep := 0;
      previousStep := 0;
      consent := InfluencerRegisterSchema.Consent(false, false, false);
      error := Nothing;
      success := Nothing;
      isLoading := false;
      navigatedTo := None;
      requests := [];
    }

    method Next(d: Inputs, isEmail: string -> bool)
      requires Valid()
      modifies this`currentStep, this`previousStep
      ensures Valid()
      ensures (currentStep, previousStep) == NextOutcome(old(currentStep), old(previousStep), d, isEmail)
    {
      var output := Trigger(d, StepFields(currentStep), isEmail);
      if !output {
        return;
      }
      if currentStep < LastStep {
        previousStep := currentStep;
        currentStep := currentStep + 1;
      }
    }

    method Prev()
      requires Valid()
      modifies this`currentStep, this`previousStep
      ensures Valid()
      ensures (currentStep, previousStep) == PrevOutcome(old(currentStep), old(previousStep))
    {
      if currentStep > 0 {
        previousStep := currentStep;
        currentStep := currentStep - 1;
      }
    }

    /** `clearErrors`, run when the first name or email gains focus and by the checkboxes. */
    method ClearErrors()
      modifies this`error, this`success
      ensures error == Nothing && success == Nothing
    {
      error := Nothing;
      success := Nothing;
    }

    method SetConsent(c: Consent)
      modifies this`consent
      ensures consent == c
    {
      consent := c;
    }

    method HandleSignUp(d: Inputs, reg: RouteResult, signIn: SignInResult)
      modifies this`error, this`success, this`isLoading, this`navigatedTo, this`requests
      ensures Current() == SignUpOutcome(old(Current()), d, consent, reg, signIn).0
      ensures var sent := SignUpOutcome(old(Current()), d, consent, reg, signIn).1;
        requests == old(requests) + (if sent.Some? then [sent.value] else [])
    {
      if !consent.termsAccepted || !consent.dataComplianceConsent {
        error := Fixed(ConsentRequired);
        return;
      }
      isLoading := true;
      error := Nothing;
      requests := requests + [RequestOf(d, consent)];
      if reg.RouteThrows? {
        error := Fixed(Unexpected);
      } else if reg.status == "error" {
        error := Verbatim(reg.message);
      } else if reg.status == "success" {
        if signIn.SignInThrows? {
          error := Fixed(Unexpected);
        } else if signIn.SignInBody? {
          if signIn.error != "" {
            error := Verbatim(signIn.error);
          } else if signIn.ok {
            success := Fixed(Registered);
            navigatedTo := Some("/brand/moreInfo");
          }
        }
      }
      isLoading := false;
    }
  }

  // ---- Properties ----

  /** `next` moves only from a step whose fields all validate, and only forward by one below the last step. */
  lemma NextMovesOnlyWhenValid(current: int, previous: int, d: Inputs, isEmail: string -> bool)
    requires 0 <= current <= LastStep
    ensures var (c, p) := NextOutcome(current, previous, d, isEmail);
      && 0 <= c <= LastStep
      && (c != current <==> Trigger(d, StepFields(current), isEmail) && current < LastStep)
      && (c != current ==> c == current + 1 && p == current && c - p == 1)
      && (c == current ==> p == previous)
  {
  }

  /** `prev` moves back by one above the first step and records the step it left. */
  lemma PrevMovesBackByOne(current: int, previous: int)
    requires 0 <= current <= LastStep
    ensures var (c, p) := PrevOutcome(current, previous);
      && 0 <= c <= LastStep
      && (current > 0 ==> c == current - 1 && p == current && c - p == -1)
      && (current == 0 ==> c == 0 && p == previous)
  {
  }

  /** The schema's field issues are empty exactly when `trigger` of the same fields passes, and every failing field is reported. */
  lemma {:induction false} FieldIssuesReportEveryFailure(d: Inputs, fields: seq<Field>, isEmail: string -> bool, k: nat)
    requires k < |fields|
    ensures FieldIssues(d, fields, isEmail) == [] <==> Trigger(d, fields, isEmail)
    ensures FieldIssue(d, fields[k], isEmail).Some? ==>
      Issue(FieldName(fields[k]), FieldIssue(d, fields[k], isEmail).value) in FieldIssues(d, fields, isEmail)
    decreases |fields|
  {
    if |fields| > 1 {
      FieldIssuesReportEveryFailure(d, fields[1..], isEmail, if k == 0 then 0 else k - 1);
      assert Trigger(d, fields, isEmail) <==> FieldIssue(d, fields[0], isEmail).None? && Trigger(d, fields[1..], isEmail) by {
        if FieldIssue(d, fields[0], isEmail).None? && Trigger(d, fields[1..], isEmail) {
          forall i | 0 <= i < |fields| ensures FieldIssue(d, fields[i], isEmail).None? {
            if i > 0 {
              assert fields[i] == fields[1..][i - 1];
            }
          }
        }
      }
    } else {
      assert fields[1..] == [];
    }
  }

  /** No step validates the username, although the schema requires it. */
  lemma UsernameNeverValidated(step: int)
    ensures Username !in StepFields(step)
  {
  }

  /** So every step passes with an empty username that the schema rejects. */
  lemma StepsPassWithoutUsername(d: Inputs, isEmail: string -> bool)
    requires |d.firstName| >= 1 && |d.lastName| >= 1 && isEmail(d.email) && |d.password| >= PasswordMin
    requires |d.companyName| >= 1 && |d.position| >= 1 && d.username == ""
    ensures forall step :: 0 <= step <= LastStep ==> Trigger(d, StepFields(step), isEmail)
    ensures Issue("username", UsernameRequired) in Issues(d, isEmail)
  {
    FieldIssuesReportEveryFailure(d, SchemaFields, isEmail, 6);
  }

  /** The form never holds the consent object, so the form's own schema check always fails on it. */
  lemma FormSchemaRejectsMissingConsent(d: Inputs, isEmail: string -> bool)
    requires d.consentAndAgreements.None?
    ensures var issues := Issues(d, isEmail); |issues| > 0 && issues[|issues| - 1] == Issue("consentAndAgreements", ConsentMissing)
  {
  }

  /** Registration is requested exactly when terms and data compliance are accepted, and it carries `privacyPolicy == termsAccepted`. */
  lemma RegistrationNeedsConsents(st: Page, d: Inputs, c: Consent, reg: RouteResult, signIn: SignInResult)
    ensures var (after, sent) := SignUpOutcome(st, d, c, reg, signIn);
      && (sent.Some? <==> c.termsAccepted && c.dataComplianceConsent)
      && (sent.Some? ==>
            sent.value.consent == c && sent.value.privacyPolicy == c.termsAccepted
            && sent.value.username == d.username && sent.value.email == d.email)
      && (sent.None? ==> after == st.(error := Fixed(ConsentRequired)))
      && (sent.Some? ==> !after.isLoading)
  {
  }

  /** An enabled submit button always passes the consent gate. */
  lemma EnabledButtonPassesGate(c: Consent, isLoading: bool)
    ensures !SubmitDisabled(c, isLoading) ==> ConsentGate(c)
    ensures SubmitDisabled(c, isLoading) <==> !ConsentGate(c) || isLoading
  {
  }

  /** Success and the move to the next page come only from a successful registration and sign-in. */
  lemma NavigatesOnlyAfterSignIn(st: Page, d: Inputs, c: Consent, reg: RouteResult, signIn: SignInResult)
    requires st.navigatedTo.None?
    ensures var after := SignUpOutcome(st, d, c, reg, signIn).0;
      after.navigatedTo.Some? <==>
        && ConsentGate(c)
        && reg.RouteBody? && reg.status == "success"
        && signIn.SignInBody? && signIn.error == "" && signIn.ok
  {
  }

  /** On this page the privacy checkbox has no callback to call: it only clears the banners. */
  lemma PrivacyBoxOnlyClears(c: Consent, checked: bool)
    ensures TermsCheckBoxes.OnCheckedChange(BoxProps(c), TermsCheckBoxes.Privacy, checked) == [TermsCheckBoxes.ErrorClear]
  {
  }
}
