/**
 * The two step validators of the signup form. Each reads the record and
 * builds a fresh error map, one conditional write per field; a step passes
 * when the map it builds has no keys.
 */
module Validation {
  import opened FormModel
  import opened EmailPattern

  /** The required-field message of each string field. */
  function RequiredMessage(f: Field): (m: string)
    requires !IsFlagField(f)
    ensures m != ""
  {
    match f
    case Email => "Email is required"
    case Password => "Password is required"
    case ConfirmPassword => "Please confirm your password"
    case FirstName => "First name is required"
    case LastName => "Last name is required"
    case CompanyName => "Company name is required"
    case CompanySize => "Company size is required"
    case Industry => "Industry is required"
    case PhoneNumber => "Phone number is required"
    case Country => "Country is required"
    case Role => "User role is required"
  }

  /** A required message is never one of the format, length, match or consent
      messages, so the visitor can tell which rule fired. */
  lemma RequiredMessageDistinct(f: Field)
    ensures !IsFlagField(f) ==>
      && RequiredMessage(f) != EmailInvalid && RequiredMessage(f) != PasswordTooShort
      && RequiredMessage(f) != PasswordsDiffer && RequiredMessage(f) != TermsRequired
  {
  }

  const EmailInvalid: string := "Email is invalid"
  const PasswordTooShort: string := "Password must be at least 8 characters"
  const PasswordsDiffer: string := "Passwords do not match"
  const TermsRequired: string := "You must agree to the terms and conditions"

  /** The shortest password step 1 accepts. */
  const MinPasswordLength: nat := 8

  const Step1Fields: set<Field> := {Email, Password, ConfirmPassword, FirstName, LastName}
  const Step2Fields: set<Field> := {CompanyName, CompanySize, Industry, PhoneNumber, Country, Role}

  /** The string a text field holds. */
  function TextOf(d: FormData, f: Field): string
    requires !IsFlagField(f)
  {
    Get(d, f).text
  }

  /** The message one line of validateStep1 writes for field f, or "" when it
      writes none: for the email, the password and its confirmation the
      required check comes first, and the format, length or equality check only
      runs on a non-empty value; the two names are only checked for being
      non-empty. */
  function Step1Message(d: FormData, f: Field): (m: string)
    ensures f !in Step1Fields ==> m == ""
    ensures f in Step1Fields ==> (m == RequiredMessage(f) <==> TextOf(d, f) == "")
    ensures f in Step1Fields && TextOf(d, f) != "" ==>
      || m == ""
      || (f == Email && m == EmailInvalid)
      || (f == Password && m == PasswordTooShort)
      || (f == ConfirmPassword && m == PasswordsDiffer)
  {
    RequiredMessageDistinct(f);
    match f
    case Email =>
      if d.email == "" then RequiredMessage(Email)
      else if !Matches(d.email) then EmailInvalid
      else ""
    case Password =>
      if d.password == "" then RequiredMessage(Password)
      else if |d.password| < MinPasswordLength then PasswordTooShort
      else ""
    case ConfirmPassword =>
      if d.confirmPassword == "" then RequiredMessage(ConfirmPassword)
      else if d.password != d.confirmPassword then PasswordsDiffer
      else ""
    case FirstName => if d.firstName == "" then RequiredMessage(FirstName) else ""
    case LastName => if d.lastName == "" then RequiredMessage(LastName) else ""
    case _ => ""
  }

  /** validateStep1's newErrors: an entry for each account field whose line
      writes a message, holding that message. */
  function Step1Errors(d: FormData): (r: ErrorMap)
    ensures r.Keys <= Step1Fields
    ensures forall f :: f in r <==> Step1Message(d, f) != ""
    ensures forall f :: f in r ==> r[f] == Step1Message(d, f)
  {
    map f | f in Step1Fields && Step1Message(d, f) != "" :: Step1Message(d, f)
  }

  /** The email line: required first, then the regular-expression test. */
  lemma Step1EmailRule(d: FormData)
    ensures Email in Step1Errors(d) <==> d.email == "" || !Matches(d.email)
    ensures Email in Step1Errors(d) ==>
      Step1Errors(d)[Email] == if d.email == "" then "Email is required" else "Email is invalid"
  {
  }

  /** The password line: required first, then at least eight characters. */
  lemma Step1PasswordRule(d: FormData)
    ensures Password in Step1Errors(d) <==> |d.password| < 8
    ensures Password in Step1Errors(d) ==>
      Step1Errors(d)[Password] ==
        if d.password == "" then "Password is required"
        else "Password must be at least 8 characters"
  {
  }

  /** The confirmation line: required first, then equal to the password. */
  lemma Step1ConfirmRule(d: FormData)
    ensures ConfirmPassword in Step1Errors(d) <==>
      d.confirmPassword == "" || d.confirmPassword != d.password
    ensures ConfirmPassword in Step1Errors(d) ==>
      Step1Errors(d)[ConfirmPassword] ==
        if d.confirmPassword == "" then "Please confirm your password" else "Passwords do not match"
  {
  }

  /** The two name lines: required only. */
  lemma Step1NameRules(d: FormData)
    ensures FirstName in Step1Errors(d) <==> d.firstName == ""
    ensures FirstName in Step1Errors(d) ==> Step1Errors(d)[FirstName] == "First name is required"
    ensures LastName in Step1Errors(d) <==> d.lastName == ""
    ensures LastName in Step1Errors(d) ==> Step1Errors(d)[LastName] == "Last name is required"
  {
  }

  /** What step 1 demands of the record, with the email format stated as the
      regular expression itself rather than as the matcher. */
  ghost predicate Step1Valid(d: FormData) {
    && d.email != "" && ContainsToken(d.email)
    && d.password != "" && |d.password| >= MinPasswordLength
    && d.confirmPassword != "" && d.confirmPassword == d.password
    && d.firstName != ""
    && d.lastName != ""
  }

  /** validateStep1 returns true exactly when the record meets every step-1 rule. */
  lemma Step1PassesIffValid(d: FormData)
    ensures Step1Errors(d) == map[] <==> Step1Valid(d)
  {
    MatchesIffContainsToken(d.email);
    Step1EmailRule(d);
    Step1PasswordRule(d);
    Step1ConfirmRule(d);
    Step1NameRules(d);
    var r := Step1Errors(d);
    if Step1Valid(d) {
      assert r.Keys == {};
    }
  }

  /** Every entry of step 1 is a message the user sees (never ""), and it is
      the required message exactly when the field is empty; a non-empty email,
      password or confirmation can only receive its format, length or match
      message, and a name only ever receives its required message. */
  lemma Step1MessageKind(d: FormData, f: Field)
    requires f in Step1Errors(d)
    ensures !IsFlagField(f) && Step1Errors(d)[f] != ""
    ensures Step1Errors(d)[f] == RequiredMessage(f) <==> TextOf(d, f) == ""
    ensures f == Email && d.email != "" ==> Step1Errors(d)[f] == EmailInvalid
    ensures f == Password && d.password != "" ==> Step1Errors(d)[f] == PasswordTooShort
    ensures f == ConfirmPassword && d.confirmPassword != "" ==> Step1Errors(d)[f] == PasswordsDiffer
    ensures f == FirstName || f == LastName ==> Step1Errors(d)[f] == RequiredMessage(f)
  {
  }

  /** A non-empty password shorter than eight characters always draws the
      length message, whatever the other twelve fields hold. */
  lemma ShortPasswordFlagged(d: FormData)
    requires 0 < |d.password| < MinPasswordLength
    ensures Password in Step1Errors(d)
    ensures Step1Errors(d)[Password] == PasswordTooShort
  {
    Step1PasswordRule(d);
  }

  /** An untouched step 1 draws exactly the five required messages. */
  lemma BlankStep1(d: FormData)
    requires d.email == "" && d.password == "" && d.confirmPassword == ""
    requires d.firstName == "" && d.lastName == ""
    ensures Step1Errors(d) == map[
      Email := "Email is required",
      Password := "Password is required",
      ConfirmPassword := "Please confirm your password",
      FirstName := "First name is required",
      LastName := "Last name is required"]
  {
    var r := Step1Errors(d);
    assert r.Keys == Step1Fields by {
      Step1EmailRule(d);
      Step1PasswordRule(d);
      Step1ConfirmRule(d);
      Step1NameRules(d);
    }
  }

  /** validateStep2's newErrors: each of the six company fields is only
      checked for being non-empty, and an empty one gets its required message;
      the option lists the values are picked from are not consulted. */
  function Step2Errors(d: FormData): (r: ErrorMap)
    ensures r.Keys <= Step2Fields
    ensures forall f :: f in Step2Fields ==> (f in r <==> TextOf(d, f) == "")
    ensures forall f :: f in r ==> r[f] == RequiredMessage(f)
  {
    map f | f in Step2Fields && TextOf(d, f) == "" :: RequiredMessage(f)
  }

  /** Every company field holds a non-empty string. */
  predicate Step2Filled(d: FormData) {
    && d.companyName != "" && d.companySize != "" && d.industry != ""
    && d.phoneNumber != "" && d.country != "" && d.role != ""
  }

  /** validateStep2 returns true exactly when the six company fields are filled. */
  lemma Step2PassesIffFilled(d: FormData)
    ensures Step2Errors(d) == map[] <==> Step2Filled(d)
  {
    var r := Step2Errors(d);
    if Step2Filled(d) {
      assert r.Keys == {} by {
        assert forall f :: f in Step2Fields ==> TextOf(d, f) != "";
      }
    } else {
      assert CompanyName in r || CompanySize in r || Industry in r
          || PhoneNumber in r || Country in r || Role in r;
    }
  }

  /** Which fields step 2 flags, field by field. */
  lemma Step2FlaggedFields(d: FormData)
    ensures CompanyName in Step2Errors(d) <==> d.companyName == ""
    ensures CompanySize in Step2Errors(d) <==> d.companySize == ""
    ensures Industry in Step2Errors(d) <==> d.industry == ""
    ensures PhoneNumber in Step2Errors(d) <==> d.phoneNumber == ""
    ensures Country in Step2Errors(d) <==> d.country == ""
    ensures Role in Step2Errors(d) <==> d.role == ""
  {
  }

  /** The message step 2 writes for each field it flags. */
  lemma Step2Messages(d: FormData, f: Field)
    requires f in Step2Errors(d)
    ensures Step2Errors(d)[f] == match f
      case CompanyName => "Company name is required"
      case CompanySize => "Company size is required"
      case Industry => "Industry is required"
      case PhoneNumber => "Phone number is required"
      case Country => "Country is required"
      case _ => "User role is required"
  {
    assert f in Step2Fields;
  }

  /** Step 2 keeps no step-1 entry and never speaks of the two check boxes. */
  lemma Step2KeysAreCompanyFields(d: FormData)
    ensures forall f :: f in Step1Fields ==> f !in Step2Errors(d)
    ensures AgreeToTerms !in Step2Errors(d) && SubscribeToUpdates !in Step2Errors(d)
  {
    var r := Step2Errors(d);
    forall f | f in Step1Fields || IsFlagField(f) ensures f !in r {
      assert f !in Step2Fields;
    }
  }

  /** Step 2 reads nothing but the six company fields: records that agree on
      them get the same map, whatever their account fields and check boxes hold. */
  lemma Step2ReadsOnlyCompanyFields(d: FormData, e: FormData)
    requires forall f :: f in Step2Fields ==> Get(d, f) == Get(e, f)
    ensures Step2Errors(d) == Step2Errors(e)
  {
    var a, b := Step2Errors(d), Step2Errors(e);
    assert a.Keys == b.Keys;
  }
}
