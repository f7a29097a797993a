/** The contact form component of `src/components/Contact.tsx`: its own
    copies of the field checks, and the state its handlers update. */
module ContactForm {
  import opened Wrappers
  import opened Text
  import opened Backend
  import opened ContactValidation
  import opened ContactApi

  /** The form's input names. */
  datatype Field = Name | Email | Phone | Service | ProjectType | Budget | Timeline | Message | PreferredContact

  /** `ContactFormData` */
  datatype FormData = FormData(name: string, email: string, phone: string, service: string,
                               projectType: string, budget: string, timeline: string,
                               message: string, preferredContact: string)
  {
    function Get(f: Field): string {
      match f
      case Name => name
      case Email => email
      case Phone => phone
      case Service => service
      case ProjectType => projectType
      case Budget => budget
      case Timeline => timeline
      case Message => message
      case PreferredContact => preferredContact
    }

    /** `{ ...prev, [name]: value }` */
    function Set(f: Field, v: string): (d: FormData)
      ensures d.Get(f) == v
      ensures forall g :: g != f ==> d.Get(g) == Get(g)
    {
      match f
      case Name => this.(name := v)
      case Email => this.(email := v)
      case Phone => this.(phone := v)
      case Service => this.(service := v)
      case ProjectType => this.(projectType := v)
      case Budget => this.(budget := v)
      case Timeline => this.(timeline := v)
      case Message => this.(message := v)
      case PreferredContact => this.(preferredContact := v)
    }
  }

  /** `initialFormData`: everything empty, e-mail as the preferred contact. */
  const INITIAL_FORM := FormData("", "", "", "", "", "", "", "", "email")

  /** `{}` */
  const NO_ERRORS := FormErrors(None, None, None, None, None)

  const SEND_FAILED := "Failed to send. Please try again or call us."

  /** `errors[name]`; the fields without a rule never hold a message. */
  function ErrorOf(e: FormErrors, f: Field): Option<Message> {
    match f
    case Name => e.name
    case Email => e.email
    case Phone => e.phone
    case Service => e.service
    case Message => e.message
    case _ => None
  }

  /** The fields that have a rule and so may hold a message. */
  predicate HasRule(f: Field) {
    f.Name? || f.Email? || f.Phone? || f.Service? || f.Message?
  }

  /** `{ ...prev, [name]: v }` on the errors record. */
  function WithError(e: FormErrors, f: Field, v: Option<Message>): (r: FormErrors)
    ensures HasRule(f) ==> ErrorOf(r, f) == v
    ensures !HasRule(f) ==> r == e
    ensures forall g :: g != f ==> ErrorOf(r, g) == ErrorOf(e, g)
  {
    match f
    case Name => e.(name := v)
    case Email => e.(email := v)
    case Phone => e.(phone := v)
    case Service => e.(service := v)
    case Message => e.(message := v)
    case _ => e
  }

  /** Whether `errors[name]` is truthy: every message has wording. */
  predicate Shown(e: FormErrors, f: Field) {
    ErrorOf(e, f).Some?
  }

  /** A character `[\d\s\-()]` accepts: `+` is not among them. */
  predicate IsComponentPhoneChar(c: char) {
    IsDigit(c) || IsWhitespace(c) || c == '-' || c == '(' || c == ')'
  }

  /** The component's `validatePhone`: ten characters of any of the allowed
      kinds; digits are not counted. */
  function ComponentValidatePhone(s: string): bool {
    |s| >= 10 && forall i :: 0 <= i < |s| ==> IsComponentPhoneChar(s[i])
  }

  /** The component's name rule: required only. */
  function ComponentNameError(name: string): (r: Option<Message>)
    ensures r.None? <==> !IsBlank(name)
    ensures r.Some? ==> r == Some(NameRequired)
  {
    if IsBlank(name) then Some(NameRequired) else None
  }

  /** The component's phone rule: required once trimmed, then its own
      phone test on the untrimmed value. */
  function ComponentPhoneError(phone: string): (r: Option<Message>)
    ensures r.None? <==> !IsBlank(phone) && ComponentValidatePhone(phone)
    ensures r == Some(PhoneRequired) <==> IsBlank(phone)
    ensures r == Some(PhoneInvalid) <==> !IsBlank(phone) && !ComponentValidatePhone(phone)
  {
    if IsBlank(phone) then Some(PhoneRequired)
    else if !ComponentValidatePhone(phone) then Some(PhoneInvalid)
    else None
  }

  /** The component's message rule: required, then at least 20 characters
      once trimmed, with no upper bound. */
  function ComponentMessageError(message: string): (r: Option<Message>)
    ensures r.None? <==> |Trim(message)| >= MESSAGE_MIN
    ensures r == Some(MessageRequired) <==> IsBlank(message)
    ensures r == Some(MessageTooShort) <==> !IsBlank(message) && |Trim(message)| < MESSAGE_MIN
  {
    if IsBlank(message) then Some(MessageRequired)
    else if |Trim(message)| < MESSAGE_MIN then Some(MessageTooShort)
    else None
  }

  /** The component's `validateForm`: the library's rules for e-mail and
      service, its own rules for name, phone and message. */
  function ComponentValidateForm(d: FormData): FormErrors {
    FormErrors(ComponentNameError(d.name), EmailError(d.email), ComponentPhoneError(d.phone),
               ServiceError(d.service), ComponentMessageError(d.message))
  }

  /** The component lets a form through exactly when the name is not
      blank, the address has the right shape, the phone number is present
      and passes its own test, a service is chosen and the message has 20
      characters once trimmed. */
  lemma ComponentFormValidIff(d: FormData)
    ensures ComponentValidateForm(d).IsEmpty() <==>
      && !IsBlank(d.name) && ValidateEmail(d.email)
      && !IsBlank(d.phone) && ComponentValidatePhone(d.phone)
      && d.service != "" && |Trim(d.message)| >= MESSAGE_MIN
  {
  }

  /** The row `handleSubmit` inserts: trimmed but not cut, empty optional
      fields as `null`. */
  function FormPayload(d: FormData): ContactRow {
    ContactRow(Trim(d.name), Trim(d.email), Trim(d.phone), d.preferredContact, d.service,
               NullIfEmpty(Some(d.projectType)), NullIfEmpty(Some(d.budget)), NullIfEmpty(Some(d.timeline)),
               Trim(d.message))
  }

  /** The same form data handed to the library's `submitContact`. */
  function AsInput(d: FormData): ContactInput {
    ContactInput(d.name, d.email, d.phone, d.preferredContact, d.service,
                 Some(d.projectType), Some(d.budget), Some(d.timeline), d.message)
  }

  /** Within the library's limits the component inserts the row the library
      would; only the cut at the limits tells them apart. */
  lemma PayloadMatchesLibraryWithinLimits(d: FormData)
    requires |Trim(d.name)| <= NAME_LIMIT && |Trim(d.email)| <= EMAIL_LIMIT
    requires |Trim(d.phone)| <= PHONE_LIMIT && |Trim(d.message)| <= MESSAGE_LIMIT
    ensures FormPayload(d) == ContactPayload(AsInput(d))
  {
    var row := ContactPayload(AsInput(d));
    assert row.name == Trim(d.name) && row.email == Trim(d.email);
    assert row.phone == Trim(d.phone) && row.message == Trim(d.message);
  }

  /** A name over the library's limit is stored whole by the component and
      cut by the library. */
  lemma PayloadKeepsLongName(d: FormData)
    requires |Trim(d.name)| > NAME_LIMIT
    ensures FormPayload(d).name != ContactPayload(AsInput(d)).name
    ensures ContactPayload(AsInput(d)).name == FormPayload(d).name[..NAME_LIMIT]
  {
  }

  /** Without `+`, every number the library accepts the component accepts. */
  lemma LibraryPhoneWithoutPlusPasses(s: string)
    requires '+' !in s && ValidatePhone(s)
    ensures ComponentValidatePhone(s)
  {
    forall i | 0 <= i < |s| ensures IsComponentPhoneChar(s[i]) {
      assert IsPhoneChar(s[i]) && s[i] != '+';
    }
  }

  /** A number the component accepts passes the library exactly when it
      holds ten digits. */
  lemma ComponentPhoneNeedsTenDigits(s: string)
    requires ComponentValidatePhone(s)
    ensures ValidatePhone(s) <==> DigitCount(s) >= 10
  {
    forall i | 0 <= i < |s| ensures IsPhoneChar(s[i]) {
      assert IsComponentPhoneChar(s[i]);
    }
  }

  /** Nine digits with punctuation pass the component and fail the library. */
  lemma NineDigitPhoneDiverges()
    ensures ComponentValidatePhone("(123) 456-789")
    ensures !ValidatePhone("(123) 456-789")
  {
    NinePhoneChars();
    NineDigits();
  }

  lemma NinePhoneChars()
    ensures forall i :: 0 <= i < |"(123) 456-789"| ==> IsComponentPhoneChar("(123) 456-789"[i])
  {
  }

  lemma NineDigits()
    ensures DigitCount("(123) 456-789") == 9
  {
    var a, b := "(123) ", "456-789";
    assert a + b == "(123) 456-789";
    assert DigitCount(a) == 3 && DigitCount(b) == 6;
    FilterConcat(a, b, IsDigit);
  }

  /** A leading `+` before an otherwise acceptable number, such as
      `"+1 555-123-4567"`, passes the library and fails the component. */
  lemma PlusPhoneDiverges(s: string)
    requires ComponentValidatePhone(s) && DigitCount(s) >= 10
    ensures ValidatePhone("+" + s)
    ensures !ComponentValidatePhone("+" + s)
  {
    var p := "+" + s;
    assert p[1..] == s;
    assert DigitCount(p) == DigitCount(s);
    forall i | 0 <= i < |p| ensures IsPhoneChar(p[i]) {
      if i > 0 {
        assert p[i] == s[i - 1] && IsComponentPhoneChar(s[i - 1]);
      }
    }
    assert !IsComponentPhoneChar(p[0]);
  }

  /** Ten spaces pass the component's phone test but are reported as
      missing, because the required check runs first. */
  lemma BlankPhoneIsRequired()
    ensures ComponentValidatePhone(Repeat(' ', 10))
    ensures ComponentPhoneError(Repeat(' ', 10)) == Some(PhoneRequired)
  {
    BlankIffAllWhitespace(Repeat(' ', 10));
  }

  /** Neither name nor message has an upper bound in the component. */
  lemma NoUpperBounds(d: FormData)
    requires |Trim(d.name)| > NAME_MAX && |Trim(d.message)| > MESSAGE_MAX
    ensures ComponentNameError(d.name).None? && ComponentMessageError(d.message).None?
    ensures NameError(d.name) == Some(NameTooLong) && MessageError(d.message) == Some(MessageTooLong)
  {
  }

  /** Everything the component keeps in state. */
  datatype ViewState = ViewState(formData: FormData, errors: FormErrors, submitError: Option<string>,
                                 isSubmitting: bool, submitSuccess: bool)

  const INITIAL_STATE := ViewState(INITIAL_FORM, NO_ERRORS, None, false, false)

  /** `handleChange`: store the value, and drop the field's message if one
      is shown. */
  function Change(s: ViewState, f: Field, value: string): ViewState {
    s.(formData := s.formData.Set(f, value),
       errors := if Shown(s.errors, f) then WithError(s.errors, f, None) else s.errors)
  }

  /** `validateForm`'s effect: a fresh errors record replaces the old one. */
  function Validate(s: ViewState): ViewState {
    s.(errors := ComponentValidateForm(s.formData))
  }

  /** `handleSubmit` up to the insert: the new state and the row handed to
      the backend, if any. */
  function Start(s: ViewState): (ViewState, Option<ContactRow>) {
    var v := Validate(s);
    if !v.errors.IsEmpty() then (v, None)
    else (v.(submitError := None, isSubmitting := true), Some(FormPayload(s.formData)))
  }

  /** The rest of `handleSubmit` once the insert has answered. */
  function Complete(s: ViewState, backendError: Option<BackendError>): ViewState {
    if backendError.Some? then s.(submitError := Some(SEND_FAILED), isSubmitting := false)
    else ViewState(INITIAL_FORM, NO_ERRORS, None, false, true)
  }

  /** The timer set after a success. */
  function SuccessTimeout(s: ViewState): ViewState {
    s.(submitSuccess := false)
  }

  /** A change touches the one field and at most its own message: the
      message is hidden afterwards and nothing else moves. */
  lemma ChangeTouchesOneField(s: ViewState, f: Field, value: string)
    ensures var t := Change(s, f, value);
      && t.formData.Get(f) == value
      && (forall g :: g != f ==> t.formData.Get(g) == s.formData.Get(g))
      && !Shown(t.errors, f)
      && (forall g :: g != f ==> ErrorOf(t.errors, g) == ErrorOf(s.errors, g))
      && t.submitError == s.submitError && t.isSubmitting == s.isSubmitting
      && t.submitSuccess == s.submitSuccess
  {
  }

  /** An invalid form issues no insert and leaves everything but the errors
      as it was; a valid one issues the trimmed row and marks the form
      busy. */
  lemma StartInsertsOnlyValidForms(s: ViewState)
    ensures var (t, insert) := Start(s);
      && t.errors == ComponentValidateForm(s.formData) && t.formData == s.formData
      && (insert.Some? <==> t.errors.IsEmpty())
      && (insert.None? ==> t == s.(errors := t.errors))
      && (insert.Some? ==> insert.value == FormPayload(s.formData) && t.isSubmitting && t.submitError.None?)
  {
  }

  /** Whatever the backend answers, the form is no longer busy; a failure
      keeps what the visitor typed and says so, a success starts over. */
  lemma CompleteEndsSubmission(s: ViewState, backendError: Option<BackendError>)
    ensures !Complete(s, backendError).isSubmitting
    ensures backendError.Some? ==>
      Complete(s, backendError) == s.(submitError := Some(SEND_FAILED), isSubmitting := false)
    ensures backendError.None? ==>
      Complete(s, backendError).formData == INITIAL_FORM && Complete(s, backendError).errors.IsEmpty()
      && Complete(s, backendError).submitSuccess
  {
  }

  /** A successful submission followed by its timer brings the component
      back to the state it was first rendered in. */
  lemma SuccessfulCycleRestoresInitialState(s: ViewState)
    requires ComponentValidateForm(s.formData).IsEmpty()
    ensures Start(s).1.Some?
    ensures SuccessTimeout(Complete(Start(s).0, None)) == INITIAL_STATE
  {
  }

  /** The component: the same state as fields that the handlers update. */
  class ContactFormView {
    var formData: FormData
    var errors: FormErrors
    var submitError: Option<string>
    var isSubmitting: bool
    var submitSuccess: bool

    function State(): ViewState
      reads this
    {
      ViewState(formData, errors, submitError, isSubmitting, submitSuccess)
    }

    constructor ()
      ensures State() == INITIAL_STATE
    {
      formData := INITIAL_FORM;
      errors := NO_ERRORS;
      submitError := None;
      isSubmitting := false;
      submitSuccess := false;
    }

    method HandleChange(f: Field, value: string)
      modifies this
      ensures State() == Change(old(State()), f, value)
    {
      formData := formData.Set(f, value);
      if Shown(errors, f) {
        errors := WithError(errors, f, None);
      }
    }

    method ValidateForm() returns (ok: bool)
      modifies this
      ensures State() == Validate(old(State()))
      ensures ok == errors.IsEmpty()
    {
      var e := ComponentValidateForm(formData);
      errors, ok := e, e.IsEmpty();
    }

    method SubmitStart() returns (insert: Option<ContactRow>)
      modifies this
      ensures (State(), insert) == Start(old(State()))
    {
      var ok := ValidateForm();
      if !ok {
        return None;
      }
      insert := Some(FormPayload(formData));
      MarkSubmitting();
    }

    /** `setSubmitError(null)` and `setIsSubmitting(true)`. */
    method MarkSubmitting()
      modifies this
      ensures State() == old(State()).(submitError := None, isSubmitting := true)
    {
      submitError := None;
      isSubmitting := true;
    }

    method SubmitComplete(backendError: Option<BackendError>)
      modifies this
      ensures State() == Complete(old(State()), backendError)
    {
      if backendError.Some? {
        submitError := Some(SEND_FAILED);
      } else {
        submitSuccess := true;
        submitError := None;
        formData := INITIAL_FORM;
        errors := NO_ERRORS;
      }
      isSubmitting := false;
    }

    method HideSuccess()
      modifies this
      ensures State() == SuccessTimeout(old(State()))
    {
      submitSuccess := false;
    }
  }
}
