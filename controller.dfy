/**
 * The signup form's state and its four handlers, as functions from the
 * state before an event to the state after it. Each handler runs as one
 * step: the queued state updates it makes are applied in the order it
 * makes them.
 */
module Controller {
  import opened FormModel
  import opened Validation

  /** currentStep: 1 is account information, 2 is company information. */
  type StepIndex = s: int | s == 1 || s == 2 witness 1

  datatype Form = Form(data: FormData, errors: ErrorMap, step: StepIndex)

  /** The state the form is mounted with. */
  const InitialForm: Form := Form(Initial, map[], 1)

  /** The initial state: every string field empty, both flags off, no error, step 1. */
  lemma InitialFormIsBlank()
    ensures InitialForm.step == 1 && InitialForm.errors == map[]
    ensures forall f :: Get(InitialForm.data, f) == if IsFlagField(f) then Flag(false) else Text("")
  {
    forall f ensures Get(InitialForm.data, f) == if IsFlagField(f) then Flag(false) else Text("") {
      InitialIsBlank(f);
    }
  }

  /** e.target.type, as far as the handler distinguishes it. */
  datatype InputType = Checkbox | OtherInput

  /** What the change handler reads from its event's target. */
  datatype ChangeEvent = ChangeEvent(name: Field, inputType: InputType, value: string, checked: bool)

  /** The form only puts check boxes on the two boolean fields. */
  predicate WellTyped(e: ChangeEvent) {
    (e.inputType == Checkbox) == IsFlagField(e.name)
  }

  /** A check box contributes `checked`, every other input `value`. */
  function StoredValue(e: ChangeEvent): (v: Value)
    requires WellTyped(e)
    ensures Fits(e.name, v)
    ensures v == if e.inputType == Checkbox then Flag(e.checked) else Text(e.value)
  {
    if e.inputType == Checkbox then Flag(e.checked) else Text(e.value)
  }

  /** handleInputChange: store the input's value in the named field; if that
      field shows an error, blank its message (the key stays). */
  function InputChanged(s: Form, e: ChangeEvent): (r: Form)
    requires WellTyped(e)
    ensures r.step == s.step
    ensures Get(r.data, e.name) == StoredValue(e)
    ensures forall f :: f != e.name ==> Get(r.data, f) == Get(s.data, f)
    ensures !HasError(r.errors, e.name)
    ensures r.errors.Keys == s.errors.Keys
    ensures forall f :: f in s.errors && f != e.name ==> r.errors[f] == s.errors[f]
    ensures e.name in s.errors ==> r.errors[e.name] == ""
    ensures !HasError(s.errors, e.name) ==> r.errors == s.errors
  {
    var data := With(s.data, e.name, StoredValue(e));
    var errors := if HasError(s.errors, e.name) then s.errors[e.name := ""] else s.errors;
    Form(data, errors, s.step)
  }

  /** handleNext: on step 1, run the step-1 validator, publish its map, and
      advance when it is empty; on step 2 nothing happens. */
  function Next(s: Form): (r: Form)
    ensures r.data == s.data
    ensures r.step == 2 <==> s.step == 2 || Step1Errors(s.data) == map[]
    ensures s.step == 1 ==> r.errors == Step1Errors(s.data)
    ensures s.step == 2 ==> r == s
  {
    if s.step == 1 then
      var errors := Step1Errors(s.data);
      Form(s.data, errors, if errors == map[] then 2 else 1)
    else s
  }

  /** handleBack: return to step 1 without touching the record or the errors. */
  function Back(s: Form): (r: Form)
    ensures r.step == 1
    ensures r.data == s.data && r.errors == s.errors
  {
    s.(step := 1)
  }

  /** What submission produces: the record handed on, or nothing. */
  datatype Outcome = Submitted(record: FormData) | NotSubmitted

  datatype SubmitResult = SubmitResult(form: Form, outcome: Outcome)

  /** handleSubmit: run the step-2 validator (always, and whatever the step),
      publish its map, and hand the record on only if the map is empty and the
      terms are accepted; without consent the consent message is added on top
      of the step-2 map. */
  function Submit(s: Form): (r: SubmitResult)
    ensures r.form.data == s.data && r.form.step == s.step
    ensures r.outcome.Submitted? <==> Step2Errors(s.data) == map[] && s.data.agreeToTerms
    ensures r.outcome.Submitted? ==> r.outcome.record == s.data
    ensures s.data.agreeToTerms ==> r.form.errors == Step2Errors(s.data)
    ensures !s.data.agreeToTerms ==>
      r.form.errors == Step2Errors(s.data)[AgreeToTerms := TermsRequired]
  {
    var errors := Step2Errors(s.data);
    var valid := errors == map[];
    if valid && s.data.agreeToTerms then
      SubmitResult(s.(errors := errors), Submitted(s.data))
    else if !s.data.agreeToTerms then
      SubmitResult(s.(errors := errors[AgreeToTerms := TermsRequired]), NotSubmitted)
    else
      SubmitResult(s.(errors := errors), NotSubmitted)
  }

  /** The step advances exactly when the record meets every step-1 rule. */
  lemma NextAdvancesIffStep1Valid(s: Form)
    requires s.step == 1
    ensures Next(s).step == 2 <==> Step1Valid(s.data)
    ensures Next(s).step == 1 ==> Next(s).errors != map[] && Next(s).errors.Keys <= Step1Fields
  {
    Step1PassesIffValid(s.data);
  }

  /** Pressing next twice does what pressing it once does. */
  lemma NextIdempotent(s: Form)
    ensures Next(Next(s)) == Next(s)
  {
  }

  /** Back after a successful next restores step 1 with the record intact. */
  lemma BackUndoesNext(s: Form)
    requires s.step == 1
    ensures Back(Next(s)) == s.(errors := Step1Errors(s.data))
  {
  }

  /** The record is handed on exactly when the six company fields are filled
      and the terms are accepted. */
  lemma SubmitSucceedsIff(s: Form)
    ensures Submit(s).outcome == Submitted(s.data) <==> Step2Filled(s.data) && s.data.agreeToTerms
    ensures Submit(s).outcome.Submitted? ==> Submit(s).form.errors == map[]
  {
    Step2PassesIffFilled(s.data);
  }

  /** Without consent nothing is submitted; with every company field filled,
      the consent message is then the only error. */
  lemma SubmitWithoutConsent(s: Form)
    requires !s.data.agreeToTerms
    ensures Submit(s).outcome == NotSubmitted
    ensures HasError(Submit(s).form.errors, AgreeToTerms)
    ensures Step2Filled(s.data) ==> Submit(s).form.errors == map[AgreeToTerms := TermsRequired]
  {
    Step2PassesIffFilled(s.data);
  }

  /** With consent but a missing company field, nothing is submitted and the
      errors are exactly the step-2 map, which is not empty. */
  lemma SubmitWithMissingField(s: Form)
    requires s.data.agreeToTerms && !Step2Filled(s.data)
    ensures Submit(s).outcome == NotSubmitted
    ensures Submit(s).form.errors == Step2Errors(s.data) != map[]
    ensures AgreeToTerms !in Submit(s).form.errors
  {
    Step2PassesIffFilled(s.data);
  }

  /** A complete signup: a record that meets every step-1 rule advances from
      step 1 with no errors, and with the company fields filled and consent
      given it is then handed on, all thirteen fields as entered. */
  lemma CompleteSignup(s: Form)
    requires s.step == 1 && Step1Valid(s.data) && Step2Filled(s.data) && s.data.agreeToTerms
    ensures Next(s).step == 2 && Next(s).errors == map[]
    ensures Submit(Next(s)).outcome == Submitted(s.data)
    ensures Submit(Next(s)).form == Next(s)
  {
    Step1PassesIffValid(s.data);
    Step2PassesIffFilled(s.data);
  }

  /** Editing a field that shows an error blanks exactly that message; here the
      email is corrected while a password error stands. */
  lemma EditClearsOnlyItsOwnError(s: Form)
    requires s.errors == map[Email := "Email is required", Password := "Password is required"]
    ensures InputChanged(s, ChangeEvent(Email, OtherInput, "a@b.com", false)).errors
         == map[Email := "", Password := "Password is required"]
    ensures InputChanged(s, ChangeEvent(Email, OtherInput, "a@b.com", false)).data.email == "a@b.com"
  {
  }
}
