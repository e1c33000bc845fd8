/**
 * The signup page component: its three pieces of state, updated in place by
 * the change, next, back and submit handlers. Each handler is tied to its
 * transition in Controller and each validator to its map in Validation,
 * where their properties are proved.
 */
module SignupPage {
  import opened FormModel
  import opened Validation
  import opened Controller

  class SignupForm {
    var formData: FormData
    var errors: ErrorMap
    var currentStep: StepIndex

    /** The whole state, as Controller sees it. */
    function State(): Form
      reads this
    {
      Form(formData, errors, currentStep)
    }

    /** Mounting the component. */
    constructor ()
      ensures State() == InitialForm
    {
      formData := Initial;
      errors := map[];
      currentStep := 1;
    }

    method HandleInputChange(e: ChangeEvent)
      requires WellTyped(e)
      modifies this
      ensures State() == InputChanged(old(State()), e)
    {
      formData := With(formData, e.name, StoredValue(e));
      if HasError(errors, e.name) {
        errors := errors[e.name := ""];
      }
    }

    /** validateStep1: replace the errors with the step-1 map; report whether it is empty. */
    method ValidateStep1() returns (valid: bool)
      modifies this
      ensures formData == old(formData) && currentStep == old(currentStep)
      ensures errors == Step1Errors(formData)
      ensures valid <==> errors == map[]
    {
      var newErrors := Step1Errors(formData);
      errors := newErrors;
      valid := |newErrors.Keys| == 0;
    }

    /** validateStep2: replace the errors with the step-2 map; report whether it is empty. */
    method ValidateStep2() returns (valid: bool)
      modifies this
      ensures formData == old(formData) && currentStep == old(currentStep)
      ensures errors == Step2Errors(formData)
      ensures valid <==> errors == map[]
    {
      var newErrors := Step2Errors(formData);
      errors := newErrors;
      valid := |newErrors.Keys| == 0;
    }

    method HandleNext()
      modifies this
      ensures State() == Next(old(State()))
    {
      if currentStep == 1 {
        var valid := ValidateStep1();
        if valid {
          currentStep := 2;
        }
      }
    }

    method HandleBack()
      modifies this
      ensures State() == Back(old(State()))
    {
      currentStep := 1;
    }

    /** Returns the record handed on, standing in for the log line that
        submission writes. */
    method HandleSubmit() returns (outcome: Outcome)
      modifies this
      ensures State() == Submit(old(State())).form
      ensures outcome == Submit(old(State())).outcome
    {
      var valid := ValidateStep2();
      if valid && formData.agreeToTerms {
        outcome := Submitted(formData);
      } else if !formData.agreeToTerms {
        errors := errors[AgreeToTerms := TermsRequired];
        outcome := NotSubmitted;
      } else {
        outcome := NotSubmitted;
      }
    }
  }

  /** The address used in the walk-through below passes the email test. */
  lemma SampleEmailMatches()
    ensures EmailPattern.Matches("jane@example.com")
  {
    var s := "jane@example.com";
    assert s[4] == '@' && s[12] == '.';
    EmailPattern.AtAheadFromMatch(s, 0, 4, 12);
  }

  /** The account details of the walk-through below. */
  const SampleAccount: FormData := Initial.(
    firstName := "Jane", lastName := "Doe", email := "jane@example.com",
    password := "s3cretpass", confirmPassword := "s3cretpass")

  /** Then the company details and the terms box. */
  const SampleSignup: FormData := SampleAccount.(
    companyName := "Acme", companySize := "11-50 employees", industry := "Fintech",
    phoneNumber := "555-0100", country := "Canada", role := "admin", agreeToTerms := true)

  /** The sample account details pass step 1. */
  lemma SampleAccountPasses()
    ensures Step1Errors(SampleAccount) == map[]
  {
    SampleEmailMatches();
    var d := SampleAccount;
    Step1EmailRule(d);
    Step1PasswordRule(d);
    Step1ConfirmRule(d);
    Step1NameRules(d);
    assert Step1Errors(d).Keys == {};
  }

  /** The sample company details pass step 2. */
  lemma SampleSignupPasses()
    ensures Step2Errors(SampleSignup) == map[]
    ensures Step2Filled(SampleSignup.(agreeToTerms := false))
  {
    Step2PassesIffFilled(SampleSignup);
  }

  /** Typing the account details into a freshly mounted form. */
  method EnterAccountDetails(form: SignupForm)
    requires form.State() == InitialForm
    modifies form
    ensures form.State() == Form(SampleAccount, map[], 1)
  {
    form.HandleInputChange(ChangeEvent(FirstName, OtherInput, "Jane", false));
    form.HandleInputChange(ChangeEvent(LastName, OtherInput, "Doe", false));
    form.HandleInputChange(ChangeEvent(Email, OtherInput, "jane@example.com", false));
    assert form.State() == Form(Initial.(
      firstName := "Jane", lastName := "Doe", email := "jane@example.com"), map[], 1);
    form.HandleInputChange(ChangeEvent(Password, OtherInput, "s3cretpass", false));
    form.HandleInputChange(ChangeEvent(ConfirmPassword, OtherInput, "s3cretpass", false));
  }

  /** Typing the company details and ticking the terms box on step 2. */
  method EnterCompanyDetails(form: SignupForm)
    requires form.State() == Form(SampleAccount, map[], 2)
    modifies form
    ensures form.State() == Form(SampleSignup, map[], 2)
  {
    form.HandleInputChange(ChangeEvent(CompanyName, OtherInput, "Acme", false));
    form.HandleInputChange(ChangeEvent(CompanySize, OtherInput, "11-50 employees", false));
    form.HandleInputChange(ChangeEvent(Industry, OtherInput, "Fintech", false));
    assert form.State() == Form(SampleAccount.(
      companyName := "Acme", companySize := "11-50 employees", industry := "Fintech"), map[], 2);
    form.HandleInputChange(ChangeEvent(PhoneNumber, OtherInput, "555-0100", false));
    assert form.State() == Form(SampleAccount.(
      companyName := "Acme", companySize := "11-50 employees", industry := "Fintech",
      phoneNumber := "555-0100"), map[], 2);
    form.HandleInputChange(ChangeEvent(Country, OtherInput, "Canada", false));
    form.HandleInputChange(ChangeEvent(Role, OtherInput, "admin", false));
    assert form.State() == Form(SampleSignup.(agreeToTerms := false), map[], 2);
    form.HandleInputChange(ChangeEvent(AgreeToTerms, Checkbox, "on", true));
  }

  /** A visitor fills in both steps, ticks the terms box, continues and
      submits: the record handed on holds all thirteen fields as entered. */
  method CompleteSignupWalkthrough() returns (outcome: Outcome)
    ensures outcome == Submitted(FormData(
      "jane@example.com", "s3cretpass", "s3cretpass", "Jane", "Doe",
      "Acme", "11-50 employees", "Fintech", "555-0100", "Canada", "admin",
      true, false))
  {
    var form := new SignupForm();
    EnterAccountDetails(form);
    SampleAccountPasses();
    form.HandleNext();
    EnterCompanyDetails(form);
    SampleSignupPasses();
    outcome := form.HandleSubmit();
  }

  /** Submitting step 2 before ticking the terms box: nothing is handed on and
      the consent message is the only error. */
  method MissingConsentWalkthrough() returns (outcome: Outcome, errors: ErrorMap)
    ensures outcome == NotSubmitted
    ensures errors == map[AgreeToTerms := TermsRequired]
  {
    var form := new SignupForm();
    EnterAccountDetails(form);
    SampleAccountPasses();
    form.HandleNext();
    EnterCompanyDetails(form);
    form.HandleInputChange(ChangeEvent(AgreeToTerms, Checkbox, "on", false));
    assert form.State() == Form(SampleSignup.(agreeToTerms := false), map[], 2);
    SampleSignupPasses();
    SubmitWithoutConsent(form.State());
    outcome := form.HandleSubmit();
    errors := form.errors;
  }
}
