/**
 * The login box: each edit re-validates its own field and nothing else, and
 * the login checks blank inputs, then the email, then the password, before
 * calling `signIn`. The server error banner is hidden while a field error is
 * shown; the states the box can reach never need that rule.
 *
 * Zod's `.email()` check is the parameter `isEmail`; `signIn`'s result is a
 * parameter, and each call is recorded with the credentials it sent.
 */
module Login {
  import opened Common

  const PasswordMin := 6

  /** The two inputs, which `handleInputChange` is called with. */
  datatype LoginField = EmailField | PasswordField

  datatype Message = EmailInvalid | EmailRequired | PasswordTooShort | InputRequired | LoggedIn
  {
    function Text(): string
    {
      match this
      case EmailInvalid => "Please enter a valid email address (e.g., user@example.com)"
      case EmailRequired => "Email is required"
      case PasswordTooShort => "Password must be at least 6 characters long"
      case InputRequired => "Please input email and password"
      case LoggedIn => "log in successful"
    }
  }

  /** The first message of `emailSchema`: the format check, then `min(1)`. */
  function EmailMessage(v: string, isEmail: string -> bool): Option<Message>
  {
    if !isEmail(v) then Some(EmailInvalid) else if |v| < 1 then Some(EmailRequired) else None
  }

  /** The message of `passwordSchema`. */
  function PasswordMessage(v: string): Option<Message>
  {
    if |v| < PasswordMin then Some(PasswordTooShort) else None
  }

  function FieldMessage(f: LoginField, v: string, isEmail: string -> bool): Option<Message>
  {
    match f
    case EmailField => EmailMessage(v, isEmail)
    case PasswordField => PasswordMessage(v)
  }

  /** `validateField`: the entry of `f` is deleted when `v` passes, and set to the first message otherwise. */
  function ValidatedErrors(errors: map<LoginField, Message>, f: LoginField, v: string, isEmail: string -> bool)
    : map<LoginField, Message>
  {
    match FieldMessage(f, v, isEmail)
    case None => errors - {f}
    case Some(m) => errors[f := m]
  }

  datatype Page = Page(
    email: string,
    password: string,
    error: Shown<Message>,
    loggedInSuccessfully: Option<Message>,
    validationErrors: map<LoginField, Message>,
    refreshed: bool)

  /** `handleInputChange(f, v)`. */
  function InputOutcome(st: Page, f: LoginField, v: string, isEmail: string -> bool): Page
  {
    var edited := if f == EmailField then st.(email := v) else st.(password := v);
    edited.(error := Nothing,
            validationErrors := if |v| > 0 then ValidatedErrors(st.validationErrors, f, v, isEmail)
                                else st.validationErrors - {f})
  }

  /** `handleLogin` run to its end: the page afterwards and whether `signIn` was called. */
  function LoginOutcome(st: Page, isEmail: string -> bool, response: SignInResult): (Page, bool)
  {
    var cleared := st.(error := Nothing, validationErrors := map[]);
    if Trim(st.email) == [] || Trim(st.password) == [] then (cleared.(error := Fixed(InputRequired)), false)
    else if EmailMessage(st.email, isEmail).Some? then
      (cleared.(validationErrors := map[EmailField := EmailMessage(st.email, isEmail).value]), false)
    else if PasswordMessage(st.password).Some? then
      (cleared.(validationErrors := map[PasswordField := PasswordMessage(st.password).value]), false)
    else
      match response
      case SignInThrows => (cleared, true)
      case SignInUndefined => (cleared, true)
      case SignInBody(e, ok) =>
        if e != "" then (cleared.(error := Verbatim(e)), true)
        else if ok then (cleared.(refreshed := true, loggedInSuccessfully := Some(LoggedIn)), true)
        else (cleared, true)
  }

  datatype Banner = FieldBanner(field: LoginField, message: Message) | ServerBanner(error: Shown<Message>) | SuccessBanner(message: Message)

  /** The banners above the inputs, top to bottom. */
  function Banners(p: Page): seq<Banner>
  {
    var errs := p.validationErrors;
    (if EmailField in errs then [FieldBanner(EmailField, errs[EmailField])] else [])
    + (if PasswordField in errs then [FieldBanner(PasswordField, errs[PasswordField])] else [])
    + (if p.error != Nothing && EmailField !in errs && PasswordField !in errs then [ServerBanner(p.error)] else [])
    + (if p.loggedInSuccessfully.Some? then [SuccessBanner(p.loggedInSuccessfully.value)] else [])
  }

  /** A server error and a field error are never set together. */
  predicate Coherent(p: Page)
  {
    p.error != Nothing ==> p.validationErrors == map[]
  }

  class LoginBox {
    var email: string
    var password: string
    var error: Shown<Message>
    var loggedInSuccessfully: Option<Message>
    var validationErrors: map<LoginField, Message>
    var refreshed: bool
    /** The credentials of each `signIn` call so far. */
    var signInCalls: seq<(string, string)>

    function Current(): Page
      reads this
    {
      Page(email, password, error, loggedInSuccessfully, validationErrors, refreshed)
    }

    predicate Valid()
      reads this
    {
      Coherent(Current())
    }

    constructor ()
      ensures Valid() && Current() == Page("", "", Nothing, None, map[], false) && signInCalls == []
    {
      email := "";
      password := "";
      error := Nothing;
      loggedInSuccessfully := None;
      validationErrors := map[];
      refreshed := false;
      signInCalls := [];
    }

    method ValidateField(f: LoginField, v: string, isEmail: string -> bool)
      modifies this`validationErrors
      ensures validationErrors == ValidatedErrors(old(validationErrors), f, v, isEmail)
    {
      var message := if f == EmailField then EmailMessage(v, isEmail) else PasswordMessage(v);
      if message.None? {
        validationErrors := validationErrors - {f};
      } else {
        validationErrors := validationErrors[f := message.value];
      }
    }

    method HandleInputChange(f: LoginField, v: string, isEmail: string -> bool)
      requires Valid()
      modifies this`email, this`password, this`error, this`validationErrors
      ensures Valid() && Current() == InputOutcome(old(Current()), f, v, isEmail)
    {
      if f == EmailField {
        email := v;
      } else {
        password := v;
      }
      if error != Nothing {
        error := Nothing;
      }
      if |v| > 0 {
        ValidateField(f, v, isEmail);
      } else {
        validationErrors := validationErrors - {f};
      }
    }

    method HandleLogin(isEmail: string -> bool, response: SignInResult)
      requires Valid()
      modifies this`error, this`validationErrors, this`loggedInSuccessfully, this`refreshed, this`signInCalls
      ensures Valid()
      ensures var (after, called) := LoginOutcome(old(Current()), isEmail, response);
        Current() == after && signInCalls == old(signInCalls) + (if called then [(email, password)] else [])
    {
      error := Nothing;
      validationErrors := map[];
      if Trim(email) == [] || Trim(password) == [] {
        error := Fixed(InputRequired);
        return;
      }
      var emailMessage := EmailMessage(email, isEmail);
      if emailMessage.Some? {
        validationErrors := map[EmailField := emailMessage.value];
        return;
      }
      var passwordMessage := PasswordMessage(password);
      if passwordMessage.Some? {
        validationErrors := map[PasswordField := passwordMessage.value];
        return;
      }
      signInCalls := signInCalls + [(email, password)];
      if response.SignInBody? {
        if response.error != "" {
          error := Verbatim(response.error);
        } else if response.ok {
          refreshed := true;
          loggedInSuccessfully := Some(LoggedIn);
        }
      }
    }
  }

  // ---- Properties ----

  /** Each schema passes exactly on its rule. */
  lemma SchemasAccept(v: string, isEmail: string -> bool)
    ensures EmailMessage(v, isEmail).None? <==> isEmail(v) && |v| >= 1
    ensures !isEmail(v) ==> EmailMessage(v, isEmail) == Some(EmailInvalid)
    ensures PasswordMessage(v).None? <==> |v| >= PasswordMin
  {
  }

  /** `validateField` changes only the entry of its field: deleted on success, the first message on failure. */
  lemma ValidateFieldChangesOnlyItsField(errors: map<LoginField, Message>, f: LoginField, v: string,
                                         isEmail: string -> bool)
    ensures var r := ValidatedErrors(errors, f, v, isEmail);
      && (forall g :: g != f ==> (g in r <==> g in errors) && (g in r ==> r[g] == errors[g]))
      && (f in r <==> FieldMessage(f, v, isEmail).Some?)
      && (f in r ==> r[f] == FieldMessage(f, v, isEmail).value)
  {
  }

  /** An edit stores its value, clears the server error, and drops its field's error when the input is emptied. */
  lemma InputChangeEffect(st: Page, f: LoginField, v: string, isEmail: string -> bool)
    ensures var r := InputOutcome(st, f, v, isEmail);
      && r.error == Nothing
      && (if f == EmailField then r.email == v && r.password == st.password
          else r.password == v && r.email == st.email)
      && (v == "" ==> f !in r.validationErrors)
      && (v != "" ==> (f in r.validationErrors <==> FieldMessage(f, v, isEmail).Some?))
      && (forall g :: g != f ==> (g in r.validationErrors <==> g in st.validationErrors))
      && r.loggedInSuccessfully == st.loggedInSuccessfully && r.refreshed == st.refreshed
  {
  }

  /** An email or password made only of white space gives the general error, with no field error and no `signIn`. */
  lemma BlankInputGivesGeneralError(st: Page, isEmail: string -> bool, response: SignInResult)
    requires (forall i :: 0 <= i < |st.email| ==> IsSpace(st.email[i]))
          || (forall i :: 0 <= i < |st.password| ==> IsSpace(st.password[i]))
    ensures var (r, called) := LoginOutcome(st, isEmail, response);
      r.error == Fixed(InputRequired) && r.validationErrors == map[] && !called
  {
    TrimEmptyIffBlank(st.email);
    TrimEmptyIffBlank(st.password);
  }

  /** A password of six spaces passes `passwordSchema`, yet the blank check stops the login first. */
  lemma SpacesPasswordNeverSent(email: string, isEmail: string -> bool, response: SignInResult)
    ensures PasswordMessage("      ").None?
    ensures var st := Page(email, "      ", Nothing, None, map[], false);
      !LoginOutcome(st, isEmail, response).1
  {
    var s := "      ";
    assert forall i :: 0 <= i < |s| ==> IsSpace(s[i]);
    TrimEmptyIffBlank(s);
  }

  /**
   * The email is checked before the password, so a login leaves at most one
   * field error; `signIn` is called exactly when both inputs are non-blank
   * and both schemas pass.
   */
  lemma LoginChecksInOrder(st: Page, isEmail: string -> bool, response: SignInResult)
    ensures var (r, called) := LoginOutcome(st, isEmail, response);
      && |r.validationErrors| <= 1
      && (PasswordField in r.validationErrors ==> EmailMessage(st.email, isEmail).None?)
      && (EmailField in r.validationErrors ==> r.validationErrors[EmailField] == EmailMessage(st.email, isEmail).value)
      && (called <==> Trim(st.email) != [] && Trim(st.password) != []
                      && EmailMessage(st.email, isEmail).None? && PasswordMessage(st.password).None?)
      && (r.loggedInSuccessfully != st.loggedInSuccessfully ==>
            called && response.SignInBody? && response.error == "" && response.ok)
      && r.email == st.email && r.password == st.password
  {
  }

  /** The server error banner appears exactly when there is an error and no field error. */
  lemma ServerBannerHiddenByFieldError(p: Page)
    ensures (exists b :: b in Banners(p) && b.ServerBanner?) <==>
      p.error != Nothing && p.validationErrors == map[]
    ensures forall f, m :: FieldBanner(f, m) in Banners(p) <==> f in p.validationErrors && p.validationErrors[f] == m
  {
    var errs := p.validationErrors;
    var a := if EmailField in errs then [FieldBanner(EmailField, errs[EmailField])] else [];
    var b := if PasswordField in errs then [FieldBanner(PasswordField, errs[PasswordField])] else [];
    var c := if p.error != Nothing && EmailField !in errs && PasswordField !in errs then [ServerBanner(p.error)] else [];
    var d := if p.loggedInSuccessfully.Some? then [SuccessBanner(p.loggedInSuccessfully.value)] else [];
    assert Banners(p) == a + b + c + d;
    assert EmailField !in errs && PasswordField !in errs <==> errs == map[] by {
      if EmailField !in errs && PasswordField !in errs {
        assert forall k :: k !in errs by {
          forall k ensures k !in errs {
            match k
            case EmailField =>
            case PasswordField =>
          }
        }
      }
    }
    if c != [] {
      assert c[0] in Banners(p);
    }
    forall f, m ensures FieldBanner(f, m) in Banners(p) <==> f in errs && errs[f] == m {
      assert FieldBanner(f, m) !in c + d;
      if f in errs && errs[f] == m {
        if f == EmailField {
          assert a[0] == FieldBanner(f, m);
        } else {
          assert b[0] == FieldBanner(f, m);
        }
        assert FieldBanner(f, m) in a + b;
      }
    }
  }

  /** Edits and logins keep server and field errors apart, so a set server error is always on screen. */
  lemma CoherentPreserved(st: Page, f: LoginField, v: string, isEmail: string -> bool, response: SignInResult)
    requires Coherent(st)
    ensures Coherent(InputOutcome(st, f, v, isEmail)) && Coherent(LoginOutcome(st, isEmail, response).0)
    ensures st.error != Nothing ==> ServerBanner(st.error) in Banners(st)
  {
  }
}
