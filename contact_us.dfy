/**
 * The contact form: four text fields, one optional message per field, and
 * a submit that only starts on a valid form. The send itself is simulated by
 * the source with a delay; here a submit runs to its end in one step, and
 * the five-second success banner is cleared by a separate call.
 */
module ContactUs {
  import opened Common

  const MessageMin := 10

  datatype Field = Name | Email | Subject | MessageField

  datatype Form = Form(name: string, email: string, subject: string, message: string)
  {
    function Get(f: Field): string
    {
      match f
      case Name => name
      case Email => email
      case Subject => subject
      case MessageField => message
    }

    function Set(f: Field, v: string): Form
    {
      match f
      case Name => this.(name := v)
      case Email => this.(email := v)
      case Subject => this.(subject := v)
      case MessageField => this.(message := v)
    }
  }

  const EmptyForm := Form("", "", "", "")

  /** The messages `validateForm` can set. */
  datatype Message = NameRequired | EmailRequired | EmailInvalid | SubjectRequired | MessageRequired | MessageTooShort
  {
    function Text(): string
    {
      match this
      case NameRequired => "Name is required"
      case EmailRequired => "Email is required"
      case EmailInvalid => "Please enter a valid email address"
      case SubjectRequired => "Subject is required"
      case MessageRequired => "Message is required"
      case MessageTooShort => "Message must be at least 10 characters long"
    }
  }

  /** `ValidationErrors`: at most one message per field. */
  datatype Errors = Errors(name: Option<Message>, email: Option<Message>, subject: Option<Message>,
                           message: Option<Message>)
  {
    function Get(f: Field): Option<Message>
    {
      match f
      case Name => name
      case Email => email
      case Subject => subject
      case MessageField => message
    }

    function Clear(f: Field): Errors
    {
      match f
      case Name => this.(name := None)
      case Email => this.(email := None)
      case Subject => this.(subject := None)
      case MessageField => this.(message := None)
    }

    predicate IsEmpty()
    {
      name.None? && email.None? && subject.None? && message.None?
    }
  }

  const NoErrors := Errors(None, None, None, None)

  predicate NoSpaceOrAt(s: string)
  {
    forall i :: 0 <= i < |s| ==> !IsSpace(s[i]) && s[i] != '@'
  }

  /** The length of the text before the first `@` (all of `s` when there is none). */
  function LocalLength(s: string): (n: nat)
    ensures n <= |s| && (n < |s| ==> s[n] == '@')
    ensures forall i :: 0 <= i < n ==> s[i] != '@'
  {
    if s == [] || s[0] == '@' then 0 else 1 + LocalLength(s[1..])
  }

  /** A dot with text on both sides. */
  predicate DotInside(d: string)
  {
    exists j :: 0 < j < |d| - 1 && d[j] == '.'
  }

  /**
   * `/^[^\s@]+@[^\s@]+\.[^\s@]+$/`: text before a single `@`, a dot strictly
   * inside the text after it, and no white space anywhere.
   */
  predicate EmailPattern(s: string)
  {
    var k := LocalLength(s);
    0 < k < |s| && NoSpaceOrAt(s[..k]) && NoSpaceOrAt(s[k + 1..]) && DotInside(s[k + 1..])
  }

  /** `validateForm`'s error object; "required" wins over the format and length checks. */
  function Validate(f: Form): Errors
  {
    Errors(RequiredError(f.name, NameRequired), EmailError(f.email), RequiredError(f.subject, SubjectRequired),
           MessageError(f.message))
  }

  function RequiredError(v: string, m: Message): Option<Message>
  {
    if Trim(v) == "" then Some(m) else None
  }

  function EmailError(v: string): Option<Message>
  {
    if Trim(v) == "" then Some(EmailRequired) else if !EmailPattern(v) then Some(EmailInvalid) else None
  }

  function MessageError(v: string): Option<Message>
  {
    if Trim(v) == "" then Some(MessageRequired) else if |Trim(v)| < MessageMin then Some(MessageTooShort) else None
  }

  datatype Page = Page(form: Form, errors: Errors, isSubmitting: bool, isSubmitted: bool)

  function InputChangeOutcome(st: Page, f: Field, v: string): Page
  {
    st.(form := st.form.Set(f, v), errors := if st.errors.Get(f).Some? then st.errors.Clear(f) else st.errors)
  }

  /**
   * `handleSubmit` run to its end: the error object is always replaced; an
   * invalid form keeps its contents, a valid one is emptied and the banner shown.
   */
  function SubmitOutcome(st: Page): Page
  {
    var e := Validate(st.form);
    if e.IsEmpty() then Page(EmptyForm, e, false, true) else st.(errors := e)
  }

  class ContactForm {
    var form: Form
    var errors: Errors
    var isSubmitting: bool
    var isSubmitted: bool

    function Current(): Page
      reads this
    {
      Page(form, errors, isSubmitting, isSubmitted)
    }

    constructor ()
      ensures Current() == Page(EmptyForm, NoErrors, false, false)
    {
      form := EmptyForm;
      errors := NoErrors;
      isSubmitting := false;
      isSubmitted := false;
    }

    /** `validateForm`'s checks, field by field, into a fresh error object. */
    static method CheckFields(f: Form) returns (e: Errors)
      ensures e == Validate(f)
    {
      e := NoErrors;
      if Trim(f.name) == "" {
        e := e.(name := Some(NameRequired));
      }
      var email := Trim(f.email);
      if email == "" {
        e := e.(email := Some(EmailRequired));
      } else if !EmailPattern(f.email) {
        e := e.(email := Some(EmailInvalid));
      }
      if Trim(f.subject) == "" {
        e := e.(subject := Some(SubjectRequired));
      }
      var message := Trim(f.message);
      if message == "" {
        e := e.(message := Some(MessageRequired));
      } else if |message| < MessageMin {
        e := e.(message := Some(MessageTooShort));
      }
    }

    /** `validateForm`: stores the error object and says whether it is empty. */
    method ValidateForm() returns (ok: bool)
      modifies this`errors
      ensures errors == Validate(form) && ok == errors.IsEmpty()
    {
      errors := CheckFields(form);
      ok := errors.IsEmpty();
    }

    method HandleInputChange(f: Field, v: string)
      modifies this
      ensures Current() == InputChangeOutcome(old(Current()), f, v)
    {
      form := form.Set(f, v);
      if errors.Get(f).Some? {
        errors := errors.Clear(f);
      }
    }

    /** `handleSubmit` run to its end: an invalid form is never sent and keeps its contents; a valid one is sent and emptied. */
    method HandleSubmit() returns (sent: bool)
      modifies this
      ensures Current() == SubmitOutcome(old(Current()))
      ensures sent <==> Validate(old(form)).IsEmpty()
    {
      var ok := ValidateForm();
      if !ok {
        return false;
      }
      Send();
      sent := true;
    }

    /** The send of a valid form: the submitting flag is raised while it runs, then the form is emptied and the banner shown. */
    method Send()
      modifies this`form, this`isSubmitting, this`isSubmitted
      ensures form == EmptyForm && isSubmitted && !isSubmitting
    {
      isSubmitting := true;
      form := EmptyForm;
      isSubmitted := true;
      isSubmitting := false;
    }

    /** The success banner's timeout. */
    method HideSuccess()
      modifies this
      ensures Current() == old(Current()).(isSubmitted := false)
    {
      isSubmitted := false;
    }
  }

  // ---- Properties ----

  /** The form is valid exactly when name and subject are not blank, the email is not blank and matches, and the trimmed message has ten characters. */
  lemma ValidIff(f: Form)
    ensures Validate(f).IsEmpty() <==>
      && Trim(f.name) != "" && Trim(f.subject) != ""
      && Trim(f.email) != "" && EmailPattern(f.email)
      && |Trim(f.message)| >= MessageMin
  {
  }

  /** A blank field is reported as required, whatever else is wrong with it. */
  lemma RequiredTakesPrecedence(f: Form)
    ensures Trim(f.name) == "" ==> Validate(f).name == Some(NameRequired)
    ensures Trim(f.email) == "" ==> Validate(f).email == Some(EmailRequired)
    ensures Trim(f.subject) == "" ==> Validate(f).subject == Some(SubjectRequired)
    ensures Trim(f.message) == "" ==> Validate(f).message == Some(MessageRequired)
  {
  }

  /** The pattern is applied to the untrimmed value: a leading space gives a format error, not "required". */
  lemma LeadingSpaceIsFormatError(f: Form)
    requires |f.email| > 0 && IsSpace(f.email[0]) && Trim(f.email) != ""
    ensures Validate(f).email == Some(EmailInvalid)
  {
    var k := LocalLength(f.email);
    if 0 < k {
      assert f.email[..k][0] == f.email[0];
    }
  }

  /** Editing a field changes that field alone and clears that field's error alone. */
  lemma EditTouchesOneField(st: Page, f: Field, v: string, g: Field)
    requires g != f
    ensures var r := InputChangeOutcome(st, f, v);
      && r.form.Get(f) == v && r.form.Get(g) == st.form.Get(g)
      && r.errors.Get(f).None? && r.errors.Get(g) == st.errors.Get(g)
      && r.isSubmitting == st.isSubmitting && r.isSubmitted == st.isSubmitted
  {
  }

  /** A concrete well-formed address matches the pattern. */
  lemma SampleEmailMatches()
    ensures EmailPattern("a@b.c")
  {
    var s := "a@b.c";
    assert LocalLength(s[1..]) == 0;
    assert s[..1] == "a" && s[2..] == "b.c";
    assert "b.c"[1] == '.';
  }
}
