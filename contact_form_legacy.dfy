/** The older contact form of `src/components/Contact.js`. Its field rules
    are the same code as the typed component's; its submission is
    simulated by two timers instead of a database insert. */
module ContactFormLegacy {
  import opened Wrappers
  import opened ContactValidation
  import opened ContactForm

  /** Everything the legacy component keeps in state. */
  datatype LegacyState = LegacyState(formData: FormData, errors: FormErrors,
                                     isSubmitting: bool, submitSuccess: bool)

  const LEGACY_INITIAL := LegacyState(INITIAL_FORM, NO_ERRORS, false, false)

  /** `handleChange`: store the value and hide the field's message. The
      source writes `''` into the errors record; an empty message and a
      missing one are shown alike and neither survives the next
      validation, so both are `None` here. */
  function LegacyChange(s: LegacyState, f: Field, value: string): LegacyState {
    s.(formData := s.formData.Set(f, value),
       errors := if Shown(s.errors, f) then WithError(s.errors, f, None) else s.errors)
  }

  /** `handleSubmit` up to the first timer: the new state and whether the
      submission went ahead. */
  function LegacySubmit(s: LegacyState): (LegacyState, bool) {
    var e := ComponentValidateForm(s.formData);
    if !e.IsEmpty() then (s.(errors := e), false)
    else (s.(errors := e, isSubmitting := true), true)
  }

  /** The first timer: the simulated call has answered. */
  function SimulatedResponse(s: LegacyState): LegacyState {
    s.(isSubmitting := false, submitSuccess := true)
  }

  /** The second timer: the form is emptied and the banner hidden; the
      errors record is not touched. */
  function ResetForm(s: LegacyState): LegacyState {
    s.(formData := INITIAL_FORM, submitSuccess := false)
  }

  /** A change affects the one field and hides at most its own message. */
  lemma LegacyChangeTouchesOneField(s: LegacyState, f: Field, value: string)
    ensures var t := LegacyChange(s, f, value);
      && t.formData.Get(f) == value
      && (forall g :: g != f ==> t.formData.Get(g) == s.formData.Get(g))
      && !Shown(t.errors, f)
      && (forall g :: g != f ==> ErrorOf(t.errors, g) == ErrorOf(s.errors, g))
      && t.isSubmitting == s.isSubmitting && t.submitSuccess == s.submitSuccess
  {
  }

  /** An invalid form returns before `isSubmitting` is set; a valid one
      sets it. The rules are those of the typed component. */
  lemma LegacySubmitGate(s: LegacyState)
    ensures var (t, went) := LegacySubmit(s);
      && t.errors == ComponentValidateForm(s.formData)
      && (went <==> t.errors.IsEmpty())
      && (!went ==> t == s.(errors := t.errors))
      && (went ==> t.isSubmitting && t.formData == s.formData && t.submitSuccess == s.submitSuccess)
  {
  }

  /** The reset keeps whatever messages are recorded, unlike the typed
      component, which clears them on success. */
  lemma ResetKeepsErrors(s: LegacyState)
    ensures ResetForm(s).errors == s.errors
    ensures ResetForm(s).formData == INITIAL_FORM && !ResetForm(s).submitSuccess
    ensures ContactForm.Complete(ViewState(s.formData, s.errors, None, s.isSubmitting, s.submitSuccess), None).errors == NO_ERRORS
  {
  }

  /** A valid submission, both timers and no edits in between bring the
      component back to its first state. */
  lemma LegacyCycleRestoresInitialState(s: LegacyState)
    requires ComponentValidateForm(s.formData).IsEmpty()
    ensures LegacySubmit(s).1
    ensures ResetForm(SimulatedResponse(LegacySubmit(s).0)) == LEGACY_INITIAL
  {
  }

  /** The legacy component: the same state as fields. */
  class LegacyContactForm {
    var formData: FormData
    var errors: FormErrors
    var isSubmitting: bool
    var submitSuccess: bool

    function State(): LegacyState
      reads this
    {
      LegacyState(formData, errors, isSubmitting, submitSuccess)
    }

    constructor ()
      ensures State() == LEGACY_INITIAL
    {
      formData := INITIAL_FORM;
      errors := NO_ERRORS;
      isSubmitting := false;
      submitSuccess := false;
    }

    method HandleChange(f: Field, value: string)
      modifies this
      ensures State() == LegacyChange(old(State()), f, value)
    {
      formData := formData.Set(f, value);
      if Shown(errors, f) {
        errors := WithError(errors, f, None);
      }
    }

    method HandleSubmit() returns (submitted: bool)
      modifies this
      ensures (State(), submitted) == LegacySubmit(old(State()))
    {
      var (next, went) := LegacySubmit(State());
      errors := next.errors;
      isSubmitting := next.isSubmitting;
      submitted := went;
    }

    method OnSimulatedResponse()
      modifies this
      ensures State() == SimulatedResponse(old(State()))
    {
      isSubmitting := false;
      submitSuccess := true;
    }

    method OnReset()
      modifies this
      ensures State() == ResetForm(old(State()))
    {
      formData := INITIAL_FORM;
      submitSuccess := false;
    }
  }
}
