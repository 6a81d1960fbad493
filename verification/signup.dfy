/** The four-step signup wizard: personal details, business details, marketing
    preferences and account setup. Each submit validates the current step and
    either stays put or moves one step on; the last step hands the collected
    profile to the sign-up call. */
module Signup {
  import opened Wrappers
  import opened Text

  /** The text inputs and selects of the form, named as in `formData`. */
  datatype TextField =
    | FirstName | LastName | Email | Password | ConfirmPassword
    | CompanyName | JobTitle | Industry | CompanySize | Phone | Website
    | PrimaryGoal | MonthlyEmailVolume | Budget

  /** The checkboxes other than the tool list. */
  datatype FlagField = AgreeToTerms | SubscribeToUpdates

  datatype SignupForm = SignupForm(
    firstName: string,
    lastName: string,
    email: string,
    password: string,
    confirmPassword: string,
    companyName: string,
    jobTitle: string,
    industry: string,
    companySize: string,
    phone: string,
    website: string,
    primaryGoal: string,
    currentTools: seq<string>,
    monthlyEmailVolume: string,
    budget: string,
    agreeToTerms: bool,
    subscribeToUpdates: bool)

  /** Every text empty, no tools, terms not accepted, updates subscribed. */
  const InitialSignup :=
    SignupForm("", "", "", "", "", "", "", "", "", "", "", "", [], "", "", false, true)

  function GetText(f: SignupForm, t: TextField): string {
    match t
    case FirstName => f.firstName
    case LastName => f.lastName
    case Email => f.email
    case Password => f.password
    case ConfirmPassword => f.confirmPassword
    case CompanyName => f.companyName
    case JobTitle => f.jobTitle
    case Industry => f.industry
    case CompanySize => f.companySize
    case Phone => f.phone
    case Website => f.website
    case PrimaryGoal => f.primaryGoal
    case MonthlyEmailVolume => f.monthlyEmailVolume
    case Budget => f.budget
  }

  /** `{ ...formData, [name]: value }` for a text input: only that input changes. */
  function SetText(f: SignupForm, t: TextField, v: string): (g: SignupForm)
    ensures GetText(g, t) == v
    ensures forall u :: u != t ==> GetText(g, u) == GetText(f, u)
    ensures g.currentTools == f.currentTools
    ensures g.agreeToTerms == f.agreeToTerms && g.subscribeToUpdates == f.subscribeToUpdates
  {
    match t
    case FirstName => f.(firstName := v)
    case LastName => f.(lastName := v)
    case Email => f.(email := v)
    case Password => f.(password := v)
    case ConfirmPassword => f.(confirmPassword := v)
    case CompanyName => f.(companyName := v)
    case JobTitle => f.(jobTitle := v)
    case Industry => f.(industry := v)
    case CompanySize => f.(companySize := v)
    case Phone => f.(phone := v)
    case Website => f.(website := v)
    case PrimaryGoal => f.(primaryGoal := v)
    case MonthlyEmailVolume => f.(monthlyEmailVolume := v)
    case Budget => f.(budget := v)
  }

  /** `currentTools.filter(tool => tool !== t)`: every copy of t goes, and the
      other tools stay, with their multiplicities. */
  function RemoveTool(tools: seq<string>, t: string): (r: seq<string>)
    ensures t !in r
    ensures multiset(r) == multiset(tools)[t := 0]
  {
    if tools == [] then []
    else
      assert tools == [tools[0]] + tools[1..];
      var rest := RemoveTool(tools[1..], t);
      if tools[0] == t then rest else [tools[0]] + rest
  }

  /** Removing works piecewise, so the remaining tools keep their order. */
  lemma {:induction false} RemoveToolAppend(a: seq<string>, b: seq<string>, t: string)
    ensures RemoveTool(a + b, t) == RemoveTool(a, t) + RemoveTool(b, t)
  {
    if a == [] {
      assert a + b == b;
    } else {
      assert (a + b)[1..] == a[1..] + b;
      RemoveToolAppend(a[1..], b, t);
    }
  }

  /** The change events `handleChange` distinguishes. */
  datatype ChangeEvent =
    | TextChange(field: TextField, value: string)
    | ToolCheck(tool: string, checked: bool)
    | FlagCheck(flag: FlagField, checked: bool)

  /** `handleChange(e)`: checking a tool appends it, unchecking removes every
      copy of it, a flag takes the checkbox state, and a text input its value;
      nothing else in the form changes. */
  function ApplyChange(f: SignupForm, e: ChangeEvent): (g: SignupForm)
    ensures e.ToolCheck? && e.checked ==> g == f.(currentTools := f.currentTools + [e.tool])
    ensures e.ToolCheck? && !e.checked ==>
      g == f.(currentTools := RemoveTool(f.currentTools, e.tool)) && e.tool !in g.currentTools
    ensures e.FlagCheck? && e.flag == AgreeToTerms ==> g == f.(agreeToTerms := e.checked)
    ensures e.FlagCheck? && e.flag == SubscribeToUpdates ==> g == f.(subscribeToUpdates := e.checked)
    ensures e.TextChange? ==>
      GetText(g, e.field) == e.value &&
      (forall u :: u != e.field ==> GetText(g, u) == GetText(f, u)) &&
      g.currentTools == f.currentTools &&
      g.agreeToTerms == f.agreeToTerms && g.subscribeToUpdates == f.subscribeToUpdates
  {
    match e
    case ToolCheck(t, checked) =>
      if checked then f.(currentTools := f.currentTools + [t])
      else f.(currentTools := RemoveTool(f.currentTools, t))
    case FlagCheck(AgreeToTerms, checked) => f.(agreeToTerms := checked)
    case FlagCheck(SubscribeToUpdates, checked) => f.(subscribeToUpdates := checked)
    case TextChange(t, v) => SetText(f, t, v)
  }

  /** Checking a tool and unchecking it again leaves no copy of it, and the other
      tools as they were before the check. */
  lemma CheckThenUncheck(f: SignupForm, t: string)
    ensures ApplyChange(ApplyChange(f, ToolCheck(t, true)), ToolCheck(t, false))
         == ApplyChange(f, ToolCheck(t, false))
  {
    RemoveToolAppend(f.currentTools, [t], t);
    assert RemoveTool([t], t) == [];
  }

  /** A tool that was never checked is unaffected by unchecking. */
  lemma {:induction false} UncheckAbsentTool(tools: seq<string>, t: string)
    requires t !in tools
    ensures RemoveTool(tools, t) == tools
  {
    if tools != [] {
      UncheckAbsentTool(tools[1..], t);
    }
  }

  datatype StepError = MissingRequired | PasswordMismatch | PasswordTooShort | TermsNotAccepted

  /** A string is truthy in JavaScript exactly when it is non-empty; nothing is trimmed. */
  predicate Filled(s: string) {
    s != []
  }

  /** `password.length`, which counts UTF-16 code units. */
  const MinPasswordLength: nat := 6

  predicate PersonalComplete(f: SignupForm) {
    Filled(f.firstName) && Filled(f.lastName) && Filled(f.email) && Filled(f.password)
  }

  predicate BusinessComplete(f: SignupForm) {
    Filled(f.companyName) && Filled(f.jobTitle) && Filled(f.industry) && Filled(f.companySize)
  }

  predicate PreferencesComplete(f: SignupForm) {
    Filled(f.primaryGoal) && Filled(f.monthlyEmailVolume) && Filled(f.budget)
  }

  /** The validation at the top of `handleSubmit` for the current step. Step one
      reports a missing field first, then a mismatch, then a short password;
      steps two and three only need their required fields; step four needs the
      terms accepted. */
  function CheckStep(f: SignupForm, step: int): (r: Option<StepError>)
    ensures step == 1 ==>
      (r.None? <==> PersonalComplete(f) && f.password == f.confirmPassword &&
                    Utf16Length(f.password) >= MinPasswordLength)
    ensures step == 1 ==> (r == Some(MissingRequired) <==> !PersonalComplete(f))
    ensures step == 1 ==>
      (r == Some(PasswordMismatch) <==> PersonalComplete(f) && f.password != f.confirmPassword)
    ensures r == Some(PasswordTooShort) <==>
      step == 1 && PersonalComplete(f) && f.password == f.confirmPassword &&
      Utf16Length(f.password) < MinPasswordLength
    ensures step == 2 ==> (r.None? <==> BusinessComplete(f)) && (r.Some? ==> r.value == MissingRequired)
    ensures step == 3 ==> (r.None? <==> PreferencesComplete(f)) && (r.Some? ==> r.value == MissingRequired)
    ensures step >= 4 ==> (r.None? <==> f.agreeToTerms) && (r.Some? ==> r.value == TermsNotAccepted)
    ensures r == Some(TermsNotAccepted) ==> step >= 4
  {
    if step < 4 then
      if step == 1 && !PersonalComplete(f) then Some(MissingRequired)
      else if step == 1 && f.password != f.confirmPassword then Some(PasswordMismatch)
      else if step == 1 && Utf16Length(f.password) < MinPasswordLength then Some(PasswordTooShort)
      else if step == 2 && !BusinessComplete(f) then Some(MissingRequired)
      else if step == 3 && !PreferencesComplete(f) then Some(MissingRequired)
      else None
    else if !f.agreeToTerms then Some(TermsNotAccepted)
    else None
  }

  /** A mismatched pair is reported as a mismatch whatever its length. */
  lemma MismatchBeforeLength(f: SignupForm)
    requires PersonalComplete(f) && f.password != f.confirmPassword
    ensures CheckStep(f, 1) == Some(PasswordMismatch)
  {
  }

  /** The phone number, the website, the tool list and the updates checkbox are
      optional: no step's validation depends on them. */
  lemma OptionalFieldsNeverBlock(f: SignupForm, step: int, phone: string, website: string,
                                 tools: seq<string>, updates: bool)
    ensures CheckStep(f.(phone := phone, website := website, currentTools := tools,
                         subscribeToUpdates := updates), step) == CheckStep(f, step)
  {
  }

  /** The profile sent with the sign-up request. */
  datatype UserMetadata = UserMetadata(
    firstName: string,
    lastName: string,
    fullName: string,
    companyName: string,
    jobTitle: string,
    industry: string,
    companySize: string,
    phone: string,
    website: string,
    primaryGoal: string,
    currentTools: seq<string>,
    monthlyEmailVolume: string,
    budget: string,
    subscribeToUpdates: bool)

  /** `userData` in `handleFinalSignup`: the full name is the first name, one
      space and the last name; the email, the password, the confirmation and the
      terms flag are not part of it. */
  function Metadata(f: SignupForm): (m: UserMetadata)
    ensures |m.fullName| == |f.firstName| + 1 + |f.lastName|
    ensures m.fullName[..|f.firstName|] == f.firstName && m.fullName[|f.firstName|] == ' '
    ensures m.fullName[|f.firstName| + 1..] == f.lastName
    ensures m.firstName == f.firstName && m.lastName == f.lastName
    ensures m.companyName == f.companyName && m.jobTitle == f.jobTitle && m.industry == f.industry
    ensures m.companySize == f.companySize && m.phone == f.phone && m.website == f.website
    ensures m.primaryGoal == f.primaryGoal && m.currentTools == f.currentTools
    ensures m.monthlyEmailVolume == f.monthlyEmailVolume && m.budget == f.budget
    ensures m.subscribeToUpdates == f.subscribeToUpdates
  {
    var full := f.firstName + " " + f.lastName;
    assert full[|f.firstName| + 1..] == f.lastName;
    UserMetadata(f.firstName, f.lastName, full, f.companyName, f.jobTitle, f.industry,
      f.companySize, f.phone, f.website, f.primaryGoal, f.currentTools,
      f.monthlyEmailVolume, f.budget, f.subscribeToUpdates)
  }

  /** `Math.round((currentStep / 4) * 100)`, the percentage on the progress bar. */
  function Progress(step: int): (percent: int)
    ensures percent == 25 * step
  {
    var exact := (step as real / 4.0) * 100.0;
    assert exact == (25 * step) as real;
    (exact + 0.5).Floor
  }

  /** What a submit does. */
  datatype SubmitOutcome =
    | Rejected(reason: StepError)
    | Advanced
    | SignUpRequested(email: string, password: string, profile: UserMetadata)

  class SignupWizard {
    var step: int
    var form: SignupForm

    /** `currentStep` is always one of the four steps. */
    predicate Valid()
      reads this
    {
      1 <= step <= 4
    }

    constructor()
      ensures Valid() && step == 1 && form == InitialSignup
    {
      step := 1;
      form := InitialSignup;
    }

    /** `handleChange`: the step does not move. */
    method Change(e: ChangeEvent)
      modifies this
      ensures form == ApplyChange(old(form), e) && step == old(step)
    {
      form := ApplyChange(form, e);
    }

    /** `handleSubmit`: a failed check leaves the step where it is; a passed
        check on steps one to three moves exactly one step on; on step four it
        sends the credentials and the profile. The form never changes. */
    method Submit() returns (outcome: SubmitOutcome)
      requires Valid()
      modifies this
      ensures Valid() && form == old(form)
      ensures CheckStep(old(form), old(step)).Some? ==>
        outcome == Rejected(CheckStep(old(form), old(step)).value) && step == old(step)
      ensures CheckStep(old(form), old(step)).None? && old(step) < 4 ==>
        outcome == Advanced && step == old(step) + 1
      ensures CheckStep(old(form), old(step)).None? && old(step) == 4 ==>
        outcome == SignUpRequested(form.email, form.password, Metadata(form)) && step == 4
    {
      var check := CheckStep(form, step);
      if check.Some? {
        return Rejected(check.value);
      }
      if step < 4 {
        step := step + 1;
        outcome := Advanced;
      } else {
        outcome := SignUpRequested(form.email, form.password, Metadata(form));
      }
    }

    /** The Previous button, which is only shown after the first step. */
    method Previous()
      requires Valid() && step > 1
      modifies this
      ensures Valid() && step == old(step) - 1 && form == old(form)
    {
      step := step - 1;
    }
  }
}
