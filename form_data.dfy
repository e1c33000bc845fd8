/**
 * The signup form's data: the thirteen-field record, the names of its
 * fields, reading and writing one field by name, the initial record, and
 * the map from field name to error message.
 */
module FormModel {

  /** The keys of the record, as the `name` attributes of the form's inputs. */
  datatype Field =
    | Email | Password | ConfirmPassword | FirstName | LastName
    | CompanyName | CompanySize | Industry | PhoneNumber | Country | Role
    | AgreeToTerms | SubscribeToUpdates

  /** The two fields held as booleans; the other eleven hold strings. */
  predicate IsFlagField(f: Field) {
    f == AgreeToTerms || f == SubscribeToUpdates
  }

  datatype FormData = FormData(
    email: string,
    password: string,
    confirmPassword: string,
    firstName: string,
    lastName: string,
    companyName: string,
    companySize: string,
    industry: string,
    phoneNumber: string,
    country: string,
    role: string,
    agreeToTerms: bool,
    subscribeToUpdates: bool)

  /** What one field holds. */
  datatype Value = Text(text: string) | Flag(flag: bool)

  /** The value has the type the record declares for the field. */
  predicate Fits(f: Field, v: Value) {
    v.Flag? == IsFlagField(f)
  }

  /** formData[name] */
  function Get(d: FormData, f: Field): (v: Value)
    ensures Fits(f, v)
  {
    match f
    case Email => Text(d.email)
    case Password => Text(d.password)
    case ConfirmPassword => Text(d.confirmPassword)
    case FirstName => Text(d.firstName)
    case LastName => Text(d.lastName)
    case CompanyName => Text(d.companyName)
    case CompanySize => Text(d.companySize)
    case Industry => Text(d.industry)
    case PhoneNumber => Text(d.phoneNumber)
    case Country => Text(d.country)
    case Role => Text(d.role)
    case AgreeToTerms => Flag(d.agreeToTerms)
    case SubscribeToUpdates => Flag(d.subscribeToUpdates)
  }

  /** { ...d, [name]: v }: the record with one field replaced and the twelve others kept. */
  function With(d: FormData, f: Field, v: Value): (r: FormData)
    requires Fits(f, v)
    ensures Get(r, f) == v
    ensures forall g :: g != f ==> Get(r, g) == Get(d, g)
  {
    FormData(
      if f == Email then v.text else d.email,
      if f == Password then v.text else d.password,
      if f == ConfirmPassword then v.text else d.confirmPassword,
      if f == FirstName then v.text else d.firstName,
      if f == LastName then v.text else d.lastName,
      if f == CompanyName then v.text else d.companyName,
      if f == CompanySize then v.text else d.companySize,
      if f == Industry then v.text else d.industry,
      if f == PhoneNumber then v.text else d.phoneNumber,
      if f == Country then v.text else d.country,
      if f == Role then v.text else d.role,
      if f == AgreeToTerms then v.flag else d.agreeToTerms,
      if f == SubscribeToUpdates then v.flag else d.subscribeToUpdates)
  }

  /** Two records that agree on every field are the same record. */
  lemma SameFieldsSameRecord(a: FormData, b: FormData)
    requires forall f :: Get(a, f) == Get(b, f)
    ensures a == b
  {
    assert Get(a, Email) == Get(b, Email) && Get(a, Password) == Get(b, Password);
    assert Get(a, ConfirmPassword) == Get(b, ConfirmPassword);
    assert Get(a, FirstName) == Get(b, FirstName) && Get(a, LastName) == Get(b, LastName);
    assert Get(a, CompanyName) == Get(b, CompanyName) && Get(a, CompanySize) == Get(b, CompanySize);
    assert Get(a, Industry) == Get(b, Industry) && Get(a, PhoneNumber) == Get(b, PhoneNumber);
    assert Get(a, Country) == Get(b, Country) && Get(a, Role) == Get(b, Role);
    assert Get(a, AgreeToTerms) == Get(b, AgreeToTerms);
    assert Get(a, SubscribeToUpdates) == Get(b, SubscribeToUpdates);
  }

  /** Writing back what a field already holds changes nothing. */
  lemma WithOwnValue(d: FormData, f: Field)
    ensures With(d, f, Get(d, f)) == d
  {
    SameFieldsSameRecord(With(d, f, Get(d, f)), d);
  }

  /** The record the form is mounted with. */
  const Initial: FormData :=
    FormData("", "", "", "", "", "", "", "", "", "", "", false, false)

  /** Every string field of the initial record is empty and both flags are off. */
  lemma InitialIsBlank(f: Field)
    ensures Get(Initial, f) == if IsFlagField(f) then Flag(false) else Text("")
  {
  }

  /** Field name to message. A message of "" or an absent key both mean the
      field shows no error. */
  type ErrorMap = map<Field, string>

  /** errors[name] is truthy: the field shows a message, which is exactly
      when blanking its entry would change the map. */
  function HasError(errors: ErrorMap, f: Field): (b: bool)
    ensures b <==> f in errors && errors[f := ""] != errors
  {
    f in errors && errors[f] != ""
  }
}
