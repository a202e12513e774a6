/**
 * The three-step campaign creation form: each step validates the form with
 * its own schema, the first one adding that the end date is after the start
 * date; the step indicator jumps without validation; and the submit runs
 * its checks in a fixed order before calling the campaign route.
 *
 * The campaign field schemas (`campaignSchema`) are not part of this model:
 * whether a step's fields pass is the parameter `fieldsOk(step)`, and the
 * full schema's verdict and issue text are parameters of the submit. Dates
 * are integer timestamps. The route's result is a parameter.
 */
module CreateCampaignForm {
  import opened Common

  const LastStep := 2

  datatype Message =
    | EndBeforeStart
    | ValidationErrorTitle | FillBeforeProceeding | FillBeforeSubmitting
    | AuthErrorTitle | BrandIdMissing
    | FormValidationTitle
    | SubmittedTitle | Redirecting
    | ErrorTitle
    | SubmissionErrorTitle | SubmissionFailed
  {
    function Text(): string
    {
      match this
      case EndBeforeStart => "End date must be after start date"
      case ValidationErrorTitle => "Validation Error"
      case FillBeforeProceeding => "Please fill out all required fields before proceeding."
      case FillBeforeSubmitting => "Please fill out all required fields on this step before submitting."
      case AuthErrorTitle => "Authentication Error"
      case BrandIdMissing => "Brand ID is missing. Please refresh and try again."
      case FormValidationTitle => "Form Validation Error"
      case SubmittedTitle => "Form submitted!"
      case Redirecting => "Redirecting to Campaigns"
      case ErrorTitle => "Error"
      case SubmissionErrorTitle => "Submission Error"
      case SubmissionFailed => "There was an error submitting the form. Please try again."
    }
  }

  datatype Toast = Toast(title: Message, description: Shown<Message>)

  /** The dates of the form; the other fields are judged by `fieldsOk`. */
  datatype Dates = Dates(startDate: int, endDate: int)

  /** The date refinement of the first step's schema, reported on `endDate`. */
  function DateIssues(d: Dates): seq<Issue<Message>>
  {
    if d.endDate > d.startDate then [] else [Issue("endDate", EndBeforeStart)]
  }

  /** The resolver of step `step`: its field schemas, and on the first step the date refinement as well. */
  predicate StepValid(step: int, d: Dates, fieldsOk: int -> bool)
  {
    fieldsOk(step) && (step == 0 ==> DateIssues(d) == [])
  }

  datatype Page = Page(currentStep: int, toast: Option<Toast>, navigatedTo: Option<string>)

  function NextOutcome(st: Page, d: Dates, fieldsOk: int -> bool): Page
  {
    if !StepValid(st.currentStep, d, fieldsOk) then
      st.(toast := Some(Toast(ValidationErrorTitle, Fixed(FillBeforeProceeding))))
    else if st.currentStep < LastStep then st.(currentStep := st.currentStep + 1)
    else st
  }

  /**
   * `handleFormSubmit` run to its end: the page afterwards and whether the
   * campaign route was called. `brandId` is "" when missing; `fullValid` and
   * `fullIssues` are the full schema's verdict and its joined issue text.
   */
  function SubmitOutcome(st: Page, d: Dates, fieldsOk: int -> bool, brandId: string, fullValid: bool,
                         fullIssues: string, reg: RouteResult): (Page, bool)
  {
    if !StepValid(st.currentStep, d, fieldsOk) then
      (st.(toast := Some(Toast(ValidationErrorTitle, Fixed(FillBeforeSubmitting)))), false)
    else if brandId == "" then (st.(toast := Some(Toast(AuthErrorTitle, Fixed(BrandIdMissing)))), false)
    else if !fullValid then
      (st.(toast := Some(Toast(FormValidationTitle, Verbatim("Please check the following fields: " + fullIssues)))), false)
    else
      match reg
      case RouteThrows => (st.(toast := Some(Toast(SubmissionErrorTitle, Fixed(SubmissionFailed)))), true)
      case RouteBody(status, message) =>
        if status == "success" then
          (st.(navigatedTo := Some("/brand/discover"), toast := Some(Toast(SubmittedTitle, Fixed(Redirecting)))), true)
        else (st.(toast := Some(Toast(ErrorTitle, Verbatim(message)))), true)
  }

  class CampaignForm {
    var currentStep: int
    var toast: Option<Toast>
    var navigatedTo: Option<string>
    /** The dates of each campaign sent to the route so far. */
    var sent: seq<Dates>

    predicate Valid()
      reads this
    {
      0 <= currentStep <= LastStep
    }

    function Current(): Page
      reads this
    {
      Page(currentStep, toast, navigatedTo)
    }

    constructor ()
      ensures Valid() && Current() == Page(0, None, None) && sent == []
    {
      currentStep := 0;
      toast := None;
      navigatedTo := None;
      sent := [];
    }

    /** `nextStep`: returns the validation verdict of the current step. */
    method NextStep(d: Dates, fieldsOk: int -> bool) returns (isValid: bool)
      requires Valid()
      modifies this`currentStep, this`toast
      ensures Valid()
      ensures isValid == StepValid(old(currentStep), d, fieldsOk)
      ensures Current() == NextOutcome(old(Current()), d, fieldsOk)
    {
      isValid := fieldsOk(currentStep) && (currentStep == 0 ==> d.endDate > d.startDate);
      if isValid {
        if currentStep < LastStep {
          currentStep := currentStep + 1;
        }
      } else {
        toast := Some(Toast(ValidationErrorTitle, Fixed(FillBeforeProceeding)));
      }
    }

    method PrevStep()
      requires Valid()
      modifies this`currentStep
      ensures Valid()
      ensures currentStep == if old(currentStep) > 0 then old(currentStep) - 1 else old(currentStep)
    {
      if currentStep > 0 {
        currentStep := currentStep - 1;
      }
    }

    /** The step indicator's `onChange`: any of the three steps, with no validation. */
    method OnChange(step: int)
      requires 0 <= step <= LastStep
      modifies this`currentStep
      ensures Valid() && currentStep == step
    {
      currentStep := step;
    }

    method HandleFormSubmit(d: Dates, fieldsOk: int -> bool, brandId: string, fullValid: bool, fullIssues: string,
                            reg: RouteResult)
      modifies this`toast, this`navigatedTo, this`sent
      ensures var (after, called) := SubmitOutcome(old(Current()), d, fieldsOk, brandId, fullValid, fullIssues, reg);
        Current() == after && sent == old(sent) + (if called then [d] else [])
    {
      var currentStepIsValid := fieldsOk(currentStep) && (currentStep == 0 ==> d.endDate > d.startDate);
      if !currentStepIsValid {
        toast := Some(Toast(ValidationErrorTitle, Fixed(FillBeforeSubmitting)));
        return;
      }
      if brandId == "" {
        toast := Some(Toast(AuthErrorTitle, Fixed(BrandIdMissing)));
        return;
      }
      if !fullValid {
        toast := Some(Toast(FormValidationTitle, Verbatim("Please check the following fields: " + fullIssues)));
        return;
      }
      sent := sent + [d];
      if reg.RouteThrows? {
        toast := Some(Toast(SubmissionErrorTitle, Fixed(SubmissionFailed)));
      } else if reg.status == "success" {
        navigatedTo := Some("/brand/discover");
        toast := Some(Toast(SubmittedTitle, Fixed(Redirecting)));
      } else {
        toast := Some(Toast(ErrorTitle, Verbatim(reg.message)));
      }
    }
  }

  // ---- Properties ----

  /** The first step rejects an end date that is not after the start date, and reports it on `endDate` alone. */
  lemma EndDateMustFollowStart(d: Dates, fieldsOk: int -> bool)
    ensures d.endDate <= d.startDate ==> !StepValid(0, d, fieldsOk) && DateIssues(d) == [Issue("endDate", EndBeforeStart)]
    ensures StepValid(0, d, fieldsOk) <==> fieldsOk(0) && d.endDate > d.startDate
    ensures forall step :: step != 0 ==> (StepValid(step, d, fieldsOk) <==> fieldsOk(step))
  {
  }

  /** `nextStep` advances exactly when the step is valid and not the last; otherwise it stays and, if invalid, warns. */
  lemma NextAdvancesOnlyWhenValid(st: Page, d: Dates, fieldsOk: int -> bool)
    requires 0 <= st.currentStep <= LastStep
    ensures var r := NextOutcome(st, d, fieldsOk);
      && 0 <= r.currentStep <= LastStep
      && (r.currentStep == st.currentStep + 1 <==> StepValid(st.currentStep, d, fieldsOk) && st.currentStep < LastStep)
      && (r.currentStep != st.currentStep + 1 ==> r.currentStep == st.currentStep)
      && (r.toast != st.toast ==> !StepValid(st.currentStep, d, fieldsOk))
  {
  }

  /**
   * The submit's checks run in the order current step, brand id, full
   * schema, route; the first failure decides the toast and the route is
   * called only past all three.
   */
  lemma SubmitCheckOrder(st: Page, d: Dates, fieldsOk: int -> bool, brandId: string, fullValid: bool, fullIssues: string,
                         reg: RouteResult)
    ensures var (after, called) := SubmitOutcome(st, d, fieldsOk, brandId, fullValid, fullIssues, reg);
      && (called <==> StepValid(st.currentStep, d, fieldsOk) && brandId != "" && fullValid)
      && (!StepValid(st.currentStep, d, fieldsOk) ==> after.toast.value.title == ValidationErrorTitle)
      && (StepValid(st.currentStep, d, fieldsOk) && brandId == "" ==> after.toast.value.title == AuthErrorTitle)
      && (StepValid(st.currentStep, d, fieldsOk) && brandId != "" && !fullValid ==>
            after.toast.value.title == FormValidationTitle)
      && (after.navigatedTo != st.navigatedTo ==> called && reg == RouteBody("success", reg.message))
      && after.currentStep == st.currentStep
  {
  }

  /** Jumping with the step indicator can reach the last step without validating the first, so the submit's own step check sees only the last step. */
  lemma JumpSkipsDateCheck(d: Dates, fieldsOk: int -> bool, brandId: string, fullIssues: string, reg: RouteResult)
    requires d.endDate <= d.startDate && fieldsOk(LastStep) && brandId != ""
    ensures !StepValid(0, d, fieldsOk)
    ensures SubmitOutcome(Page(LastStep, None, None), d, fieldsOk, brandId, false, fullIssues, reg).0.toast.value.title
      == FormValidationTitle
  {
  }
}
