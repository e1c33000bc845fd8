# Signup form of the FraudGuard site, modelled in Dafny

The FraudGuard onboarding page collects a new account in two steps. Step 1
covers the account: email, password, password confirmation, first and last
name. Step 2 covers the company: name, size, industry, phone number,
country, role, a terms-of-service box and a newsletter box. The page keeps
three pieces of state:

- the 13-field record;
- the current step, 1 or 2;
- a map from field name to error message.

Four handlers change this state:

- a change handler stores what the visitor typed and blanks that field's error;
- "Continue" validates step 1 and advances when it passes;
- "Back" returns to step 1;
- "Start Free Trial" validates step 2 and hands the record on only when the
  terms were accepted.

The model has five modules, one file each:

- `FormModel` (form_data.dfy): the record `FormData`, its field names
  `Field`, reading (`Get`) and writing (`With`) one field by name, the
  initial record, and the error map. A key mapped to `""` and an absent key
  both mean that no error is shown (`HasError`).
- `EmailPattern` (email_pattern.dfy): the email test, the unanchored regular
  expression `\S+@\S+\.\S+`. `Matches` is a left-to-right scan. `ContainsToken`
  states the expression's meaning directly: some substring splits as x@y.z,
  with x, y and z non-empty runs of non-whitespace. `MatchesIffContainsToken`
  proves that the two agree on every string. Whitespace is the full
  ECMAScript `\s` class.
- `Validation` (validation.dfy): the two validators as pure functions from the
  record to the error map they build (`Step1Errors`, `Step2Errors`), the
  messages, and lemmas about them.
- `Controller` (controller.dfy): the state as a value (`Form`) and each handler
  as a function from the state before to the state after (`InputChanged`,
  `Next`, `Back`, `Submit`), with lemmas about them.
- `SignupPage` (signup_page.dfy): the component as a class `SignupForm` with
  the three fields `formData`, `errors` and `currentStep`. Its handler
  methods update the fields in place. Each method's postcondition ties the
  new state to the corresponding `Controller` or `Validation` function:
  `HandleInputChange` to `InputChanged`, `ValidateStep1` and `ValidateStep2`
  to `Step1Errors` and `Step2Errors`, and `HandleNext`, `HandleBack` and
  `HandleSubmit` to `Next`, `Back` and `Submit`. Two client
  methods walk a visitor through a complete signup and through a
  submission without consent.

Submission only logs the record. The model returns it as
`Submitted(record)` instead.

Three points where the code behaves differently from what one might
expect. The model follows the code:

- Editing a field that shows an error does not remove its key from the map.
  It sets the message to `""` (`InputChanged`, ensures `r.errors.Keys == s.errors.Keys`).
- Step 2 only checks that the six company fields are non-empty. The lists
  that the size, industry and role are picked from are never consulted.
- The submit handler does not look at the current step. It always runs the
  step-2 validator first, and it adds the consent message on top of that
  validator's map.

## Model

| member | source | states |
|---|---|---|
| FormModel.With | project/src/components/SignupPage.tsx:85-88 | writing a field by name sets that field to the given value and leaves the other twelve unchanged |
| FormModel.WithOwnValue | project/src/components/SignupPage.tsx:85-88 | writing back the value a field already holds leaves the record unchanged |
| FormModel.HasError | project/src/components/SignupPage.tsx:91 | the truthiness test `errors[name]`: the field has a non-empty message, which holds exactly when it has an entry and blanking that entry would change the map |
| FormModel.InitialIsBlank | project/src/components/SignupPage.tsx:39-53 | in the initial record every string field is empty and both booleans are false |
| Controller.InitialFormIsBlank | project/src/components/SignupPage.tsx:38-55 | the mounted state is the blank record, an empty error map and step 1 |
| EmailPattern.Matches | project/src/components/SignupPage.tsx:100 | the scan succeeds exactly when some '@' has a \S before it and a \S after it, followed by a run of \S up to a '.' that is itself followed by a \S |
| EmailPattern.MatchesIffContainsToken | project/src/components/SignupPage.tsx:100 | the email scan succeeds exactly when some substring is x@y.z with x, y, z non-empty whitespace-free runs, i.e. when the unanchored `\S+@\S+\.\S+` finds a match |
| EmailPattern.ShortestMatch | project/src/components/SignupPage.tsx:100 | no string shorter than five characters passes the email test |
| Validation.RequiredMessage | project/src/components/SignupPage.tsx:99-123 | the eleven required-field messages, one per string field; each is non-empty and differs from the format, length, match and consent messages |
| Validation.RequiredMessageDistinct | project/src/components/SignupPage.tsx:99-146 | no required-field message equals the email-format, password-length, password-match or consent message |
| Validation.Step1Message | project/src/components/SignupPage.tsx:99-109 | the message one validateStep1 line writes: none outside the five account fields; the required message exactly when the field is empty; otherwise nothing, or for the email, password and confirmation only their format, length or match message |
| Validation.Step1Errors | project/src/components/SignupPage.tsx:96-110 | the map has keys only among the five account fields, and holds exactly the fields whose line writes a message, each with that message |
| Validation.Step1EmailRule | project/src/components/SignupPage.tsx:99-100 | the email has an entry exactly when it is empty or fails the pattern: 'Email is required' when empty, 'Email is invalid' otherwise |
| Validation.Step1PasswordRule | project/src/components/SignupPage.tsx:102-103 | the password has an entry exactly when it is shorter than 8: 'Password is required' when empty, the length message otherwise |
| Validation.Step1ConfirmRule | project/src/components/SignupPage.tsx:105-106 | the confirmation has an entry exactly when it is empty or differs from the password: 'Please confirm your password' when empty, 'Passwords do not match' otherwise |
| Validation.Step1NameRules | project/src/components/SignupPage.tsx:108-109 | each name has an entry exactly when it is empty, carrying its required message |
| Validation.Step1PassesIffValid | project/src/components/SignupPage.tsx:96-113 | step 1 yields an empty map exactly when the email is non-empty and matches the regular expression, the password is non-empty with at least 8 characters, the confirmation is non-empty and equals it, and both names are non-empty |
| Validation.Step1MessageKind | project/src/components/SignupPage.tsx:99-109 | each step-1 entry is a visible message; it is the required message exactly when the field is empty; a non-empty email, password or confirmation gets its format, length or match message, and a name only ever gets its required message |
| Validation.ShortPasswordFlagged | project/src/components/SignupPage.tsx:102-103 | any record whose password is non-empty and shorter than 8 draws the length message, whatever its other fields hold |
| Validation.BlankStep1 | project/src/components/SignupPage.tsx:99-109 | with the five account fields empty, the map is exactly the five required messages |
| Validation.Step2Errors | project/src/components/SignupPage.tsx:115-124 | the map has keys only among the six company fields; a company field has an entry exactly when it is empty, carrying its required message |
| Validation.Step2FlaggedFields | project/src/components/SignupPage.tsx:118-123 | each of companyName, companySize, industry, phoneNumber, country and role is flagged exactly when it is empty |
| Validation.Step2Messages | project/src/components/SignupPage.tsx:118-123 | each flagged company field carries its own fixed message |
| Validation.Step2PassesIffFilled | project/src/components/SignupPage.tsx:115-127 | step 2 yields an empty map exactly when the six company fields are non-empty |
| Validation.Step2KeysAreCompanyFields | project/src/components/SignupPage.tsx:116-125 | the step-2 map keeps no step-1 entry and never mentions agreeToTerms or subscribeToUpdates |
| Validation.Step2ReadsOnlyCompanyFields | project/src/components/SignupPage.tsx:118-123 | records that agree on the six company fields get the same step-2 map |
| Controller.StoredValue | project/src/components/SignupPage.tsx:87 | a check box contributes its checked state, any other input its value, and the value fits the field's type |
| Controller.InputChanged | project/src/components/SignupPage.tsx:83-94 | exactly the named field changes, to the stored value; the step is kept; if the field showed an error its message becomes "" and every other entry is unchanged, otherwise the map is untouched |
| Controller.EditClearsOnlyItsOwnError | project/src/components/SignupPage.tsx:83-94 | correcting the email while email and password errors stand blanks the email message and keeps the password message |
| Controller.Next | project/src/components/SignupPage.tsx:129-133 | the record is never changed; on step 1 the errors become the step-1 map and the step becomes 2 exactly when that map is empty; on step 2 nothing changes |
| Controller.NextAdvancesIffStep1Valid | project/src/components/SignupPage.tsx:129-133 | from step 1, the step advances exactly when every step-1 rule holds; a rejected advance leaves a non-empty map of step-1 fields only |
| Controller.NextIdempotent | project/src/components/SignupPage.tsx:129-133 | pressing next twice has the effect of pressing it once |
| Controller.Back | project/src/components/SignupPage.tsx:135-137 | the step becomes 1; the record and the errors are unchanged |
| Controller.BackUndoesNext | project/src/components/SignupPage.tsx:129-137 | going back after next from step 1 returns to step 1 with the record intact and the step-1 map published |
| Controller.Submit | project/src/components/SignupPage.tsx:139-148 | record and step unchanged; submits exactly when the step-2 map is empty and agreeToTerms holds; the submitted record is the whole record; errors are the step-2 map, plus the consent message when agreeToTerms is false |
| Controller.SubmitSucceedsIff | project/src/components/SignupPage.tsx:139-143 | the record is handed on exactly when the six company fields are filled and the terms are accepted, and then no error remains |
| Controller.SubmitWithoutConsent | project/src/components/SignupPage.tsx:145-146 | without consent nothing is submitted and the consent error shows; with every company field filled it is the only error |
| Controller.SubmitWithMissingField | project/src/components/SignupPage.tsx:141-147 | with consent but an empty company field nothing is submitted and the errors are exactly the non-empty step-2 map |
| Controller.CompleteSignup | project/src/components/SignupPage.tsx:129-143 | a record meeting every step-1 rule, with the company fields filled and consent given, advances with no errors and is then submitted unchanged |
| SignupPage.SignupForm.constructor | project/src/components/SignupPage.tsx:38-55 | the component starts in the initial state |
| SignupPage.SignupForm.HandleInputChange | project/src/components/SignupPage.tsx:83-94 | the new state is the change transition of the old one |
| SignupPage.SignupForm.ValidateStep1 | project/src/components/SignupPage.tsx:96-113 | the errors are replaced by the step-1 map, the result says whether it is empty, nothing else changes |
| SignupPage.SignupForm.ValidateStep2 | project/src/components/SignupPage.tsx:115-127 | the errors are replaced by the step-2 map, the result says whether it is empty, nothing else changes |
| SignupPage.SignupForm.HandleNext | project/src/components/SignupPage.tsx:129-133 | the new state is the next transition of the old one |
| SignupPage.SignupForm.HandleBack | project/src/components/SignupPage.tsx:135-137 | the new state is the back transition of the old one |
| SignupPage.SignupForm.HandleSubmit | project/src/components/SignupPage.tsx:139-148 | the new state and the outcome are those of the submit transition |
| SignupPage.SampleEmailMatches | project/src/components/SignupPage.tsx:100 | jane@example.com passes the email test |
| SignupPage.SampleAccountPasses | project/src/components/SignupPage.tsx:96-113 | the walk-through's account details give an empty step-1 map |
| SignupPage.SampleSignupPasses | project/src/components/SignupPage.tsx:115-127 | the walk-through's company details give an empty step-2 map |
| SignupPage.CompleteSignupWalkthrough | project/src/components/SignupPage.tsx:83-148 | filling both steps through the change handler, continuing and submitting hands on all thirteen fields as entered |
| SignupPage.MissingConsentWalkthrough | project/src/components/SignupPage.tsx:139-148 | the same visitor, with the terms box unticked again, gets nothing submitted and only the consent error |

## Left out

- Rendering is not modelled: markup, style classes, icons, the progress indicator and the page copy are presentation only.
- The show-password and show-confirmation toggles are not modelled. They only change how an input is displayed.
- The size, industry and role option lists are not modelled. They only feed the select boxes and radio buttons, and no validator reads them.
- Logging the submitted record is not modelled. The model returns the record as the outcome instead, and there is no backend call.
- React's queued state updates are not modelled. Each handler runs as one step, and its updates apply in the order it makes them. The change handler's check of the error from the last render is read against the current state. `preventDefault` on submit is not modelled.
- Field names are the 13-constructor type `Field`, not strings. A change event naming a key outside the record cannot be expressed.
- Controller.InputChanged and SignupPage.SignupForm.HandleInputChange require that a check box targets one of the two boolean fields and every other input targets a string field. That is how the form wires its inputs. A mismatched event would store a value of the wrong type in the record, and the record type cannot hold that.
- Validation.Step1Errors: the password length and emptiness are measured in Unicode code points (Dafny's `string`), not in UTF-16 code units. A password with characters outside the Basic Multilingual Plane can reach 8 code units with fewer than 8 code points.
- EmailPattern.IsSpace fixes the whitespace set to today's ECMAScript `\s` (tab, line feed, vertical tab, form feed, carriage return, the Unicode space separators, U+2028, U+2029 and U+FEFF). It does not follow changes in later Unicode versions.
- LandingPage.tsx is not part of this model. It is static content with a menu toggle.
- App.tsx is not part of this model. It is a two-route table of the router library.
