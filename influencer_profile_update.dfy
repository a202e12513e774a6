/**
 * The influencer profile-update form: two steps, each validating its listed
 * fields before moving on; defaults built from the stored profile; field
 * errors that the step components clear one key at a time; and the same
 * submit and failure classification as the brand profile form.
 *
 * The form library's field validation is the influencer update schema; the
 * update route's result and the value it may throw are parameters.
 */
module InfluencerProfileUpdate {
  import opened Common
  import InfluencerUpdateSchema
  import opened BrandProfileUpdate

  const LastInfluencerStep := 1

  /** The paths `handleNext` validates on each step. */
  function InfluencerStepFields(step: int): seq<string>
  {
    if step == 0 then ["firstName", "lastName", "email", "username", "phoneNumber", "location.country", "location.city"]
    else ["contentAndAudience.primaryNiche", "contentAndAudience.contentSpecialisation"]
  }

  function InfluencerNextStep(current: int, issues: seq<Issue<InfluencerUpdateSchema.Message>>): int
  {
    if FieldsValid(issues, InfluencerStepFields(current)) && current < LastInfluencerStep then current + 1 else current
  }

  /** `raw[key] || false`. */
  function BoolDefault(raw: map<string, bool>, key: string): bool
  {
    key in raw && raw[key]
  }

  /** The default values, from the stored strings and flags by dotted key and the session's email. */
  function InfluencerDefaults(raw: map<string, string>, flags: map<string, bool>, sessionEmail: string): InfluencerUpdateSchema.Update
  {
    InfluencerUpdateSchema.Update(
      StringDefault(raw, "firstName"), StringDefault(raw, "lastName"), EmailDefault(raw, sessionEmail),
      StringDefault(raw, "username"), StringDefault(raw, "phoneNumber"),
      StringDefault(raw, "location.country"), StringDefault(raw, "location.city"), Some(StringDefault(raw, "personalBio")),
      StringDefault(raw, "contentAndAudience.primaryNiche"), Some(StringDefault(raw, "contentAndAudience.secondaryNiche")),
      StringDefault(raw, "contentAndAudience.contentSpecialisation"),
      BoolDefault(flags, "contentAndAudience.brandGifting"), BoolDefault(flags, "contentAndAudience.paidCollaborationsOnly"),
      BoolDefault(flags, "consentAndAgreements.termsAccepted"), BoolDefault(flags, "consentAndAgreements.marketingOptIn"),
      BoolDefault(flags, "consentAndAgreements.dataComplianceConsent"))
  }

  class InfluencerProfileForm {
    var currentStep: int
    var isSubmitting: bool
    var isSuccess: bool
    var fieldErrors: map<string, Message>
    var toast: Option<Toast>
    var sent: seq<InfluencerUpdateSchema.Update>

    predicate Valid()
      reads this
    {
      0 <= currentStep <= LastInfluencerStep
    }

    function Current(): Page
      reads this
    {
      Page(isSubmitting, isSuccess, fieldErrors, toast)
    }

    constructor ()
      ensures Valid() && currentStep == 0 && Current() == Page(false, false, map[], None) && sent == []
    {
      currentStep := 0;
      isSubmitting := false;
      isSuccess := false;
      fieldErrors := map[];
      toast := None;
      sent := [];
    }

    /** `clearFieldError`: removes one key and keeps every other field error. */
    method ClearFieldError(name: string)
      modifies this`fieldErrors
      ensures fieldErrors == old(fieldErrors) - {name}
    {
      fieldErrors := fieldErrors - {name};
    }

    method HandleNext(values: InfluencerUpdateSchema.Update, isEmail: string -> bool)
      requires Valid()
      modifies this`currentStep
      ensures Valid()
      ensures currentStep == InfluencerNextStep(old(currentStep), InfluencerUpdateSchema.Issues(values, isEmail))
    {
      var isValid := FieldsValid(InfluencerUpdateSchema.Issues(values, isEmail), InfluencerStepFields(currentStep));
      if isValid && currentStep < LastInfluencerStep {
        currentStep := currentStep + 1;
      }
    }

    method HandlePrevious()
      requires Valid()
      modifies this`currentStep
      ensures Valid()
      ensures currentStep == PreviousStep(old(currentStep))
    {
      if currentStep > 0 {
        currentStep := currentStep - 1;
      }
    }

    /** The `catch` block: the classified failure's field errors and toast. */
    method Report(failure: Failure)
      modifies this`fieldErrors, this`toast
      ensures fieldErrors == Classify(failure).fieldErrors && toast == Some(FailureToast(Classify(failure)))
    {
      var c := Classify(failure);
      fieldErrors := c.fieldErrors;
      toast := Some(FailureToast(c));
    }

    method HandleFormSubmit(values: InfluencerUpdateSchema.Update, isEmail: string -> bool, reg: RouteResult, thrown: Failure)
      modifies this`isSubmitting, this`isSuccess, this`fieldErrors, this`toast, this`sent
      ensures var (after, called) :=
        SubmitOutcome(old(Current()), InfluencerUpdateSchema.Issues(values, isEmail) == [], reg, thrown, InfluencerUpdatedDescription);
        Current() == after && sent == old(sent) + (if called then [values] else [])
    {
      var valid := InfluencerUpdateSchema.Issues(values, isEmail) == [];
      Submit(valid, values, reg, thrown);
    }

    /**
     * `handleSubmit(handleFormSubmit)` once the form library has validated the
     * values: invalid values never reach the handler and change nothing.
     */
    method Submit(valid: bool, values: InfluencerUpdateSchema.Update, reg: RouteResult, thrown: Failure)
      modifies this`isSubmitting, this`isSuccess, this`fieldErrors, this`toast, this`sent
      ensures var (after, called) := SubmitOutcome(old(Current()), valid, reg, thrown, InfluencerUpdatedDescription);
        Current() == after && sent == old(sent) + (if called then [values] else [])
    {
      if !valid {
        return;
      }
      isSubmitting := true;
      fieldErrors := map[];
      sent := sent + [values];
      if reg.RouteBody? && reg.status == "success" {
        isSuccess := true;
        toast := Some(Toast(UpdatedTitle, Fixed(InfluencerUpdatedDescription)));
      } else {
        Report(if reg.RouteBody? then ResponseFailure(reg.message) else thrown);
      }
      isSubmitting := false;
    }
  }

  // ---- Properties ----

  /** Clearing one key removes exactly that key. */
  lemma ClearFieldErrorExact(errors: map<string, Message>, name: string, other: string)
    requires other != name
    ensures name !in errors - {name}
    ensures other in errors ==> other in errors - {name} && (errors - {name})[other] == errors[other]
    ensures other in errors - {name} ==> other in errors
  {
  }

  /** The step index stays in [0, 1], and a step advances only when its listed fields validate. */
  lemma InfluencerStepsStayInRange(current: int, issues: seq<Issue<InfluencerUpdateSchema.Message>>)
    requires 0 <= current <= LastInfluencerStep
    ensures 0 <= InfluencerNextStep(current, issues) <= LastInfluencerStep
    ensures 0 <= PreviousStep(current) <= LastInfluencerStep
    ensures InfluencerNextStep(current, issues) == current + 1 <==>
      current == 0 && FieldsValid(issues, InfluencerStepFields(0))
  {
  }

  /** A first step with an empty city does not advance: the schema reports it on the validated path. */
  lemma EmptyCityBlocksFirstStep(values: InfluencerUpdateSchema.Update, isEmail: string -> bool)
    requires values.city == ""
    ensures InfluencerNextStep(0, InfluencerUpdateSchema.Issues(values, isEmail)) == 0
  {
    var issues := InfluencerUpdateSchema.Issues(values, isEmail);
    var k := |issues| - |InfluencerUpdateSchema.When(|values.primaryNiche| < 1, "contentAndAudience.primaryNiche",
                                                     InfluencerUpdateSchema.PrimaryNicheRequired)
                        + InfluencerUpdateSchema.When(|values.contentSpecialisation| < 1,
                                                      "contentAndAudience.contentSpecialisation",
                                                      InfluencerUpdateSchema.SpecialisationRequired)| - 1;
    assert issues[k] == Issue("location.city", InfluencerUpdateSchema.CityRequired);
  }

  /** Missing strings default to "" and missing flags to false; the email falls back to the session's. */
  lemma InfluencerDefaultsFallBack(raw: map<string, string>, flags: map<string, bool>, sessionEmail: string)
    ensures var d := InfluencerDefaults(raw, flags, sessionEmail);
      && d.city == (if "location.city" in raw then raw["location.city"] else "")
      && d.personalBio == Some(if "personalBio" in raw then raw["personalBio"] else "")
      && d.brandGifting == ("contentAndAudience.brandGifting" in flags && flags["contentAndAudience.brandGifting"])
      && ("consentAndAgreements.termsAccepted" !in flags ==> !d.termsAccepted)
      && d.email == (if "email" in raw && raw["email"] != "" then raw["email"] else sessionEmail)
  {
  }
}
