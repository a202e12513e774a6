/**
 * The brand profile-update form: three steps, of which the first two
 * validate their listed fields before moving on; defaults built from the
 * stored profile; and a submit whose failures are classified into at most
 * one field error and a toast. The classification is shared with the
 * influencer profile form, whose source repeats it.
 *
 * The form library's field validation is the brand update schema; the
 * update route's result and the value it may throw are parameters.
 */
module BrandProfileUpdate {
  import opened Common
  import BrandUpdateSchema

  const LastStep := 2

  /** The form's own texts: the field errors, the toast titles and the fixed descriptions. */
  datatype Message =
    | EmailTakenField | UsernameTakenField
    | EmailInUse | UsernameInUse | DefaultError | UpdateFailed
    | CheckInputTitle | UpdateFailedTitle | UpdatedTitle | BrandUpdatedDescription | InfluencerUpdatedDescription
  {
    function Text(): string
    {
      match this
      case EmailTakenField => "This email address is already registered. Please use a different email."
      case UsernameTakenField => "This username is already taken. Please choose a different username."
      case EmailInUse => "Email address is already in use"
      case UsernameInUse => "Username is already in use"
      case DefaultError => "An error occurred while updating your profile."
      case UpdateFailed => "Update failed"
      case CheckInputTitle => "Please check your input"
      case UpdateFailedTitle => "Update Failed"
      case UpdatedTitle => "Profile Updated Successfully!"
      case BrandUpdatedDescription => "Your brand profile information has been updated."
      case InfluencerUpdatedDescription => "Your profile information has been updated."
    }
  }

  datatype Toast = Toast(title: Message, description: Shown<Message>)

  /** What the `catch` receives: an `Error` (its `message`, "" when empty), a thrown string, or any other value. */
  datatype Failure = ErrorWithMessage(message: string) | StringValue(s: string) | OtherValue

  /** One of the words that mark a duplicate. */
  predicate DuplicateWord(m: string)
  {
    Contains(m, "already") || Contains(m, "exists") || Contains(m, "duplicate") || Contains(m, "taken")
  }

  /** The classification of a failure: the field errors to show, the toast description, and whether a field error is shown. */
  datatype Classified = Classified(fieldErrors: map<string, Message>, description: Shown<Message>, showFieldError: bool)

  function Classify(f: Failure): (c: Classified)
  {
    match f
    case ErrorWithMessage(m) =>
      if m == "" then Classified(map[], Fixed(DefaultError), false)
      else
        var lower := ToLower(m);
        if Contains(lower, "email") && DuplicateWord(lower) then
          Classified(map["email" := EmailTakenField], Fixed(EmailInUse), true)
        else if Contains(lower, "username") && DuplicateWord(lower) then
          Classified(map["username" := UsernameTakenField], Fixed(UsernameInUse), true)
        else Classified(map[], Verbatim(m), false)
    case StringValue(s) => Classified(map[], Verbatim(s), false)
    case OtherValue => Classified(map[], Fixed(DefaultError), false)
  }

  /** The toast a classified failure shows. */
  function FailureToast(c: Classified): Toast
  {
    Toast(if c.showFieldError then CheckInputTitle else UpdateFailedTitle, c.description)
  }

  /** A non-success response is thrown as an `Error` carrying the server message, or "Update failed" when it has none. */
  function ResponseFailure(message: string): Failure
  {
    ErrorWithMessage(if message != "" then message else UpdateFailed.Text())
  }

  // ---- Defaults ----

  /** `raw[key] || ""`: a missing or empty stored value becomes "". */
  function StringDefault(raw: map<string, string>, key: string): string
  {
    if key in raw && raw[key] != "" then raw[key] else ""
  }

  /** The email default: the stored email, else the session's, else "". */
  function EmailDefault(raw: map<string, string>, sessionEmail: string): string
  {
    if "email" in raw && raw["email"] != "" then raw["email"] else sessionEmail
  }

  /** The schema fields of the default values; there is no password and no campaign list. */
  function Defaults(raw: map<string, string>, sessionEmail: string): BrandUpdateSchema.Update
  {
    BrandUpdateSchema.Update(
      Some(StringDefault(raw, "firstName")), Some(StringDefault(raw, "lastName")), Some(StringDefault(raw, "username")),
      Some(StringDefault(raw, "companyName")), Some(StringDefault(raw, "companyWebsite")),
      Some(EmailDefault(raw, sessionEmail)), None, Some(StringDefault(raw, "position")), Some(StringDefault(raw, "logo")),
      Some(StringDefault(raw, "industry")), Some(StringDefault(raw, "phoneNumber")), None,
      Some(StringDefault(raw, "businessType")), Some(StringDefault(raw, "bio")))
  }

  /** The nested social-media and payment defaults, by dotted key. */
  const NestedKeys := ["socialMedia.instagram", "socialMedia.facebook", "socialMedia.linkedin", "socialMedia.twitter",
                       "paymentDetails.method", "paymentDetails.billingInfo"]

  function NestedDefaults(raw: map<string, string>): (r: map<string, string>)
    ensures r.Keys == set k | k in NestedKeys
  {
    map k | k in NestedKeys :: StringDefault(raw, k)
  }

  // ---- Steps ----

  /** The fields `handleNext` validates on each step; the last step has none. */
  function StepFields(step: int): seq<string>
  {
    if step == 0 then ["firstName", "lastName", "email"]
    else if step == 1 then ["companyName", "position", "businessType", "industry"]
    else []
  }

  /** `trigger(fields)`: no schema issue on any listed path. */
  predicate FieldsValid<M>(issues: seq<Issue<M>>, fields: seq<string>)
  {
    forall i :: 0 <= i < |issues| ==> issues[i].path !in fields
  }

  function NextStep(current: int, issues: seq<Issue<BrandUpdateSchema.Message>>): int
  {
    if |StepFields(current)| > 0 && !FieldsValid(issues, StepFields(current)) then current
    else if current < LastStep then current + 1
    else current
  }

  function PreviousStep(current: int): int
  {
    if current > 0 then current - 1 else current
  }

  // ---- Submit ----

  datatype Page = Page(isSubmitting: bool, isSuccess: bool, fieldErrors: map<string, Message>, toast: Option<Toast>)

  /**
   * `handleSubmit(handleFormSubmit)` run to its end: the page afterwards and
   * whether the update route was called. `valid` is the form library's
   * validation of the values: with the schema resolver, invalid values never
   * reach `handleFormSubmit`, so the page is left as it was. `updated` is the
   * success toast's description.
   */
  function SubmitOutcome(st: Page, valid: bool, reg: RouteResult, thrown: Failure, updated: Message): (Page, bool)
  {
    var cleared := st.(fieldErrors := map[], isSubmitting := false);
    if !valid then (st, false)
    else
      match reg
      case RouteBody(status, message) =>
        if status == "success" then
          (cleared.(isSuccess := true, toast := Some(Toast(UpdatedTitle, Fixed(updated)))), true)
        else
          var c := Classify(ResponseFailure(message));
          (cleared.(fieldErrors := c.fieldErrors, toast := Some(FailureToast(c))), true)
      case RouteThrows =>
        var c := Classify(thrown);
        (cleared.(fieldErrors := c.fieldErrors, toast := Some(FailureToast(c))), true)
  }

  class ProfileForm {
    var currentStep: int
    var isSubmitting: bool
    var isSuccess: bool
    var fieldErrors: map<string, Message>
    var toast: Option<Toast>
    /** The values sent to the update route so far. */
    var sent: seq<BrandUpdateSchema.Update>

    predicate Valid()
      reads this
    {
      0 <= currentStep <= LastStep
    }

    function Current(): Page
      reads this
    {
      Page(isSubmitting, isSuccess, fieldErrors, toast)
    }

    constructor ()
      ensures Valid() && currentStep == 0 && Current() == Page(false, false, map[], None) && sent == []
    {
      currentStep := 0;
      isSubmitting := false;
      isSuccess := false;
      fieldErrors := map[];
      toast := None;
      sent := [];
    }

    method HandleNext(values: BrandUpdateSchema.Update, isEmail: string -> bool, isUrl: string -> bool)
      requires Valid()
      modifies this`currentStep
      ensures Valid()
      ensures currentStep == NextStep(old(currentStep), BrandUpdateSchema.Issues(values, isEmail, isUrl))
    {
      var fields := StepFields(currentStep);
      if |fields| > 0 {
        var isValid := FieldsValid(BrandUpdateSchema.Issues(values, isEmail, isUrl), fields);
        if !isValid {
          return;
        }
      }
      if currentStep < LastStep {
        currentStep := currentStep + 1;
      }
    }

    method HandlePrevious()
      requires Valid()
      modifies this`currentStep
      ensures Valid()
      ensures currentStep == PreviousStep(old(currentStep))
    {
      if currentStep > 0 {
        currentStep := currentStep - 1;
      }
    }

    /** The `catch` block: the classified failure's field errors and toast. */
    method Report(failure: Failure)
      modifies this`fieldErrors, this`toast
      ensures fieldErrors == Classify(failure).fieldErrors && toast == Some(FailureToast(Classify(failure)))
    {
      var c := Classify(failure);
      fieldErrors := c.fieldErrors;
      toast := Some(FailureToast(c));
    }

    method HandleFormSubmit(values: BrandUpdateSchema.Update, isEmail: string -> bool, isUrl: string -> bool,
                            reg: RouteResult, thrown: Failure)
      modifies this`isSubmitting, this`isSuccess, this`fieldErrors, this`toast, this`sent
      ensures var (after, called) :=
        SubmitOutcome(old(Current()), BrandUpdateSchema.Issues(values, isEmail, isUrl) == [], reg, thrown, BrandUpdatedDescription);
        Current() == after && sent == old(sent) + (if called then [values] else [])
    {
      var issues := BrandUpdateSchema.Issues(values, isEmail, isUrl);
      if issues != [] {
        return;
      }
      isSubmitting := true;
      fieldErrors := map[];
      sent := sent + [values];
      if reg.RouteBody? && reg.status == "success" {
        isSuccess := true;
        toast := Some(Toast(UpdatedTitle, Fixed(BrandUpdatedDescription)));
      } else {
        Report(if reg.RouteBody? then ResponseFailure(reg.message) else thrown);
      }
      isSubmitting := false;
    }
  }

  // ---- Properties ----

  /** A duplicate-email message sets the email field error alone, even when it also mentions the username. */
  lemma EmailRuleFirst(m: string)
    requires m != "" && Contains(ToLower(m), "email") && DuplicateWord(ToLower(m))
    ensures Classify(ErrorWithMessage(m)) == Classified(map["email" := EmailTakenField], Fixed(EmailInUse), true)
  {
  }

  /** The username rule applies only when the email rule does not. */
  lemma UsernameRuleSecond(m: string)
    requires m != ""
    ensures Classify(ErrorWithMessage(m)).fieldErrors.Keys == {"username"} <==>
      !(Contains(ToLower(m), "email") && DuplicateWord(ToLower(m)))
      && Contains(ToLower(m), "username") && DuplicateWord(ToLower(m))
  {
    var c := Classify(ErrorWithMessage(m));
    if c.fieldErrors.Keys == {"username"} {
      assert "username" in c.fieldErrors;
    }
  }

  /** At most one field error is set, and it is set exactly when the toast asks to check the input. */
  lemma AtMostOneFieldError(f: Failure)
    ensures var c := Classify(f);
      && |c.fieldErrors| <= 1
      && (c.showFieldError <==> |c.fieldErrors| == 1)
      && (FailureToast(c).title == CheckInputTitle <==> c.showFieldError)
      && (FailureToast(c).title == UpdateFailedTitle <==> !c.showFieldError)
  {
  }

  /** Messages that match neither rule are shown as they are; thrown strings verbatim; anything else gets the default. */
  lemma UnmatchedPassThrough(f: Failure)
    ensures var c := Classify(f);
      && (f.ErrorWithMessage? && f.message != "" && !c.showFieldError ==> c.description == Verbatim(f.message))
      && (f.StringValue? ==> c == Classified(map[], Verbatim(f.s), false))
      && (f.OtherValue? || f == ErrorWithMessage("") ==> c == Classified(map[], Fixed(DefaultError), false))
  {
  }

  /** A non-success response carries the server message, or "Update failed" when it has none. */
  lemma ResponseFailureMessage(message: string)
    ensures ResponseFailure(message).message == if message != "" then message else "Update failed"
    ensures ResponseFailure(message).message != ""
  {
  }

  /** The step index stays in range; the last step needs no validation; a step advances only when its fields validate. */
  lemma StepsStayInRange(current: int, issues: seq<Issue<BrandUpdateSchema.Message>>)
    requires 0 <= current <= LastStep
    ensures 0 <= NextStep(current, issues) <= LastStep && 0 <= PreviousStep(current) <= LastStep
    ensures NextStep(current, issues) == current + 1 <==> current < LastStep && FieldsValid(issues, StepFields(current))
    ensures StepFields(LastStep) == []
  {
  }

  /** Every missing or empty stored string becomes "", and the email falls back to the session's. */
  lemma DefaultsFallBack(raw: map<string, string>, sessionEmail: string)
    ensures var d := Defaults(raw, sessionEmail);
      && d.firstName == Some(if "firstName" in raw then raw["firstName"] else "")
      && d.businessType == Some(if "businessType" in raw then raw["businessType"] else "")
      && d.email == Some(if "email" in raw && raw["email"] != "" then raw["email"] else sessionEmail)
      && d.password.None? && d.campaigns.None?
    ensures forall k :: k in NestedKeys ==> NestedDefaults(raw)[k] == (if k in raw then raw[k] else "")
  {
  }

  /**
   * Failing values never reach the handler: the page, earlier field errors
   * included, stays as it was. Valid values always reach the route, and the
   * submitting flag is lowered afterwards.
   */
  lemma SubmitNeedsValidValues(st: Page, valid: bool, reg: RouteResult, thrown: Failure, updated: Message)
    ensures var (after, called) := SubmitOutcome(st, valid, reg, thrown, updated);
      && (called <==> valid)
      && (!valid ==> after == st)
      && (called ==> !after.isSubmitting && |after.fieldErrors| <= 1)
      && (after.isSuccess != st.isSuccess ==> called && reg.RouteBody? && reg.status == "success")
      && (called ==> after.toast.Some?) && (!called ==> after.toast == st.toast)
  {
    AtMostOneFieldError(thrown);
    if reg.RouteBody? {
      AtMostOneFieldError(ResponseFailure(reg.message));
    }
  }
}
