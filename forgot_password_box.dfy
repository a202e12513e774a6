/**
 * The forgot-password box: the email is re-validated on every non-empty
 * edit, the form is validated before the reset request is sent, and the
 * button is disabled while submitting, while any validation error exists, or
 * while the email is empty.
 *
 * Zod's `.email()` check is the parameter `isEmail`; the reset route's
 * result is a parameter, and each request is recorded with its email.
 */
module ForgotPassword {
  import opened Common

  datatype Message = FormatInvalid | FormatHint | ResetSent | UnexpectedResponse | Unexpected
  {
    function Text(): string
    {
      match this
      case FormatInvalid => "Please enter a valid email format"
      case FormatHint => "Please enter a valid email format (e.g., example@domain.com)"
      case ResetSent => "Password reset email sent successfully. Please check your inbox."
      case UnexpectedResponse => "Unexpected response from server. Please try again."
      case Unexpected => "An unexpected error occurred. Please try again."
    }
  }

  /** The one issue `forgotPasswordSchema` can report, on path `email`. */
  function EmailIssue(v: string, isEmail: string -> bool): Option<Message>
  {
    if isEmail(v) then None else Some(FormatInvalid)
  }

  /** `validateEmail(v)`: the `email` entry is deleted when `v` passes and set to the issue otherwise. */
  function ValidatedErrors(errors: map<string, Message>, v: string, isEmail: string -> bool): map<string, Message>
  {
    match EmailIssue(v, isEmail)
    case None => errors - {"email"}
    case Some(m) => errors["email" := m]
  }

  datatype Page = Page(
    email: string,
    error: Shown<Message>,
    validationErrors: map<string, Message>,
    successMessage: Shown<Message>,
    isSubmitting: bool)

  /** The reset button's `disabled`. */
  predicate Disabled(p: Page)
  {
    p.isSubmitting || |p.validationErrors.Keys| > 0 || p.email == ""
  }

  /** The text under the input for a stored email error. */
  function EmailErrorText(stored: string): string
  {
    if stored == "Invalid email address" then FormatHint.Text() else stored
  }

  /** `handleInputChange(v)`. */
  function InputOutcome(st: Page, v: string, isEmail: string -> bool): Page
  {
    st.(email := v, error := Nothing,
        validationErrors := if |v| > 0 then ValidatedErrors(st.validationErrors, v, isEmail)
                            else st.validationErrors - {"email"})
  }

  /** `handleForgotPassword` run to its end: the page afterwards and whether the request was sent. */
  function SubmitOutcome(st: Page, isEmail: string -> bool, response: RouteResult): (Page, bool)
  {
    if !isEmail(st.email) then (st.(validationErrors := map["email" := FormatInvalid]), false)
    else
      var sending := st.(validationErrors := map[], error := Nothing, successMessage := Nothing, isSubmitting := false);
      match response
      case RouteThrows => (sending.(error := Fixed(Unexpected)), true)
      case RouteBody(status, message) =>
        if status == "error" then (sending.(error := Verbatim(message)), true)
        else if status == "success" then
          (sending.(successMessage := if message != "" then Verbatim(message) else Fixed(ResetSent), email := ""), true)
        else (sending.(error := Fixed(UnexpectedResponse)), true)
  }

  /**
   * The validation errors follow the email: only the `email` key is ever
   * set, it holds the schema's issue, and for a non-empty email it is
   * present exactly when the email is invalid.
   */
  predicate Tracks(p: Page, isEmail: string -> bool)
  {
    && p.validationErrors.Keys <= {"email"}
    && ("email" in p.validationErrors ==> p.validationErrors["email"] == FormatInvalid)
    && (p.email != "" ==> ("email" in p.validationErrors <==> !isEmail(p.email)))
  }

  class ForgotPasswordBox {
    var email: string
    var error: Shown<Message>
    var validationErrors: map<string, Message>
    var successMessage: Shown<Message>
    var isSubmitting: bool
    /** The email of each reset request sent so far. */
    var requests: seq<string>

    function Current(): Page
      reads this
    {
      Page(email, error, validationErrors, successMessage, isSubmitting)
    }

    constructor ()
      ensures Current() == Page("", Nothing, map[], Nothing, false) && requests == []
    {
      email := "";
      error := Nothing;
      validationErrors := map[];
      successMessage := Nothing;
      isSubmitting := false;
      requests := [];
    }

    method ValidateEmail(v: string, isEmail: string -> bool)
      modifies this`validationErrors
      ensures validationErrors == ValidatedErrors(old(validationErrors), v, isEmail)
    {
      if isEmail(v) {
        validationErrors := validationErrors - {"email"};
      } else {
        validationErrors := validationErrors["email" := FormatInvalid];
      }
    }

    method ValidateForm(isEmail: string -> bool) returns (ok: bool)
      modifies this`validationErrors
      ensures ok == isEmail(email)
      ensures validationErrors == if ok then map[] else map["email" := FormatInvalid]
    {
      if isEmail(email) {
        validationErrors := map[];
        ok := true;
      } else {
        validationErrors := map["email" := FormatInvalid];
        ok := false;
      }
    }

    method HandleInputChange(v: string, isEmail: string -> bool)
      modifies this`email, this`error, this`validationErrors
      ensures Current() == InputOutcome(old(Current()), v, isEmail)
    {
      email := v;
      if error != Nothing {
        error := Nothing;
      }
      if |v| > 0 {
        ValidateEmail(v, isEmail);
      } else {
        validationErrors := validationErrors - {"email"};
      }
    }

    method HandleForgotPassword(isEmail: string -> bool, response: RouteResult)
      modifies this`email, this`error, this`validationErrors, this`successMessage, this`isSubmitting, this`requests
      ensures var (after, sent) := SubmitOutcome(old(Current()), isEmail, response);
        Current() == after && requests == old(requests) + (if sent then [old(email)] else [])
    {
      var ok := ValidateForm(isEmail);
      if !ok {
        return;
      }
      isSubmitting := true;
      error := Nothing;
      successMessage := Nothing;
      requests := requests + [email];
      match response {
        case RouteThrows =>
          error := Fixed(Unexpected);
        case RouteBody(status, message) =>
          if status == "error" {
            error := Verbatim(message);
          } else if status == "success" {
            successMessage := if message != "" then Verbatim(message) else Fixed(ResetSent);
            email := "";
            validationErrors := map[];
          } else {
            error := Fixed(UnexpectedResponse);
          }
      }
      isSubmitting := false;
    }
  }

  // ---- Properties ----

  /** An edit stores its value and clears the server error; an empty input drops the email error, a non-empty one re-validates it. */
  lemma InputChangeEffect(st: Page, v: string, isEmail: string -> bool)
    ensures var r := InputOutcome(st, v, isEmail);
      && r.email == v && r.error == Nothing
      && (v == "" ==> "email" !in r.validationErrors)
      && (v != "" ==> ("email" in r.validationErrors <==> !isEmail(v)))
      && (forall k :: k != "email" ==> (k in r.validationErrors <==> k in st.validationErrors))
      && r.successMessage == st.successMessage && r.isSubmitting == st.isSubmitting
  {
  }

  /** The request is sent exactly when the form validates; otherwise only the email error changes. */
  lemma RequestOnlyWhenValid(st: Page, isEmail: string -> bool, response: RouteResult)
    ensures var (r, sent) := SubmitOutcome(st, isEmail, response);
      && (sent <==> isEmail(st.email))
      && (!sent ==> r == st.(validationErrors := map["email" := FormatInvalid]))
      && (sent ==> !r.isSubmitting)
  {
  }

  /**
   * A success clears the email and every validation error and shows the
   * server's message or the default one; a status that is neither error nor
   * success gives the fixed "unexpected response" error.
   */
  lemma ResponseHandling(st: Page, isEmail: string -> bool, status: string, message: string)
    requires isEmail(st.email)
    ensures var r := SubmitOutcome(st, isEmail, RouteBody(status, message)).0;
      && (status == "success" ==>
            r.email == "" && r.validationErrors == map[] && r.error == Nothing
            && r.successMessage == (if message == "" then Fixed(ResetSent) else Verbatim(message)))
      && (status == "error" ==> r.error == Verbatim(message) && r.successMessage == Nothing)
      && (status != "success" && status != "error" ==> r.error == Fixed(UnexpectedResponse) && r.successMessage == Nothing)
      && (status != "success" ==> r.email == st.email)
  {
  }

  /** Edits and submits keep the validation errors in step with the email. */
  lemma TracksPreserved(st: Page, v: string, isEmail: string -> bool, response: RouteResult)
    requires Tracks(st, isEmail)
    ensures Tracks(InputOutcome(st, v, isEmail), isEmail)
    ensures Tracks(SubmitOutcome(st, isEmail, response).0, isEmail)
  {
  }

  /** With the errors in step with the email, an enabled button always sends the request. */
  lemma EnabledButtonSends(st: Page, isEmail: string -> bool, response: RouteResult)
    requires Tracks(st, isEmail) && !Disabled(st)
    ensures SubmitOutcome(st, isEmail, response).1
  {
  }

  /** The schema's own message is never the one the hint replaces, so the stored message is shown as it is. */
  lemma HintNeverShown()
    ensures EmailErrorText(FormatInvalid.Text()) == FormatInvalid.Text()
    ensures FormatInvalid.Text() != "Invalid email address"
  {
  }
}
