/** The sign-up page: its schema with the password-confirmation refinement, and
    the submit handler that drives the session store. */
module SignUp {
  import opened Wrappers
  import opened Schema
  import opened Submission
  import AuthStore

  /** The registered inputs always hold a value: text for the four inputs, a
      boolean for the terms checkbox. */
  datatype SignUpForm = SignUpForm(
    name: string, email: string, password: string, confirmPassword: string, acceptTerms: bool)

  datatype Field = NameField | EmailField | PasswordField | ConfirmPasswordField | AcceptTermsField

  const MismatchMessage := "Passwords don't match"

  /** Whether the object shape accepts `field`. `isEmail` stands for zod's
      email check; `confirmPassword` is a plain string with no rule. */
  predicate ShapePasses(form: SignUpForm, isEmail: string -> bool, field: Field) {
    match field
    case NameField => |form.name| >= 2
    case EmailField => isEmail(form.email)
    case PasswordField => |form.password| >= 6
    case ConfirmPasswordField => true
    case AcceptTermsField => form.acceptTerms
  }

  /** Whether `field` is free of issues once the refinement, which reports on
      `confirmPassword`, has run too. */
  predicate Passes(form: SignUpForm, isEmail: string -> bool, field: Field) {
    match field
    case ConfirmPasswordField => form.password == form.confirmPassword
    case _ => ShapePasses(form, isEmail, field)
  }

  /** The shape's check of one field, with the schema's message. */
  function FieldIssues(form: SignUpForm, isEmail: string -> bool, field: Field): (issues: seq<Issue<Field>>)
    ensures Fields(issues) == if ShapePasses(form, isEmail, field) then {} else {field}
  {
    match field
    case NameField => Rule(|form.name| >= 2, field, "Name must be at least 2 characters")
    case EmailField => Rule(isEmail(form.email), field, "Please enter a valid email address")
    case PasswordField => Rule(|form.password| >= 6, field, "Password must be at least 6 characters")
    case ConfirmPasswordField => Rule(true, field, "")
    case AcceptTermsField => Rule(form.acceptTerms, field, "You must accept the terms and conditions")
  }

  /** The shape's issues for the fields in `group`, in order. */
  function GroupIssues(form: SignUpForm, isEmail: string -> bool, group: seq<Field>): (issues: seq<Issue<Field>>)
    ensures forall field :: field in Fields(issues) <==> field in group && !ShapePasses(form, isEmail, field)
  {
    if group == [] then []
    else
      var first := FieldIssues(form, isEmail, group[0]);
      var rest := GroupIssues(form, isEmail, group[1..]);
      FieldsAppend(first, rest);
      first + rest
  }

  /** The shape's keys, in declaration order. */
  const SchemaFields := [NameField, EmailField, PasswordField, ConfirmPasswordField, AcceptTermsField]

  /** The list names every field of the form. */
  lemma SchemaFieldsComplete()
    ensures forall field :: field in SchemaFields
  {
    forall field ensures field in SchemaFields {
      match field
      case NameField => assert SchemaFields[0] == field;
      case EmailField => assert SchemaFields[1] == field;
      case PasswordField => assert SchemaFields[2] == field;
      case ConfirmPasswordField => assert SchemaFields[3] == field;
      case AcceptTermsField => assert SchemaFields[4] == field;
    }
  }

  /** `signUpSchema`: the shape's issues in key order, then the refinement's.
      The refinement runs even when a field rule has failed, since a failed
      length, email or boolean check leaves the parse dirty, not aborted. */
  function ValidateSignUp(form: SignUpForm, isEmail: string -> bool): (issues: seq<Issue<Field>>)
    ensures forall field :: field in Fields(issues) <==> !Passes(form, isEmail, field)
    ensures issues == [] <==> forall field :: Passes(form, isEmail, field)
  {
    var shape := GroupIssues(form, isEmail, SchemaFields);
    var refinement := Rule(form.password == form.confirmPassword, ConfirmPasswordField, MismatchMessage);
    SchemaFieldsComplete();
    FieldsAppend(shape, refinement);
    FieldsEmpty(shape + refinement);
    shape + refinement
  }

  /** A mismatch is reported with its own message, on `confirmPassword`, and is
      the last issue; a match adds no issue after the shape's. */
  lemma MismatchReported(form: SignUpForm, isEmail: string -> bool)
    ensures var issues := ValidateSignUp(form, isEmail);
            form.password != form.confirmPassword <==>
              issues != [] && issues[|issues| - 1] == Issue(ConfirmPasswordField, MismatchMessage)
  {
    var shape := GroupIssues(form, isEmail, SchemaFields);
    if form.password == form.confirmPassword && shape != [] {
      var last := shape[|shape| - 1];
      assert last.field in Fields(shape);
    }
  }

  const Destination := "/dashboard"

  /** The page's own state. */
  class SignUpPage {
    var error: Option<string>
    var navigatedTo: Option<Navigation>

    constructor ()
      ensures error == None && navigatedTo == None
    {
      error := None;
      navigatedTo := None;
    }

    /** Pressing "Create Account": `handleSubmit` validates and, only if no rule
        fails, runs `onSubmit`, which clears the error, awaits the store's
        `signUp` and navigates to the dashboard. The store's `signUp` never
        rejects, so the handler's catch is never reached. */
    method Submit(store: AuthStore.SessionStore, form: SignUpForm, isEmail: string -> bool,
                  randomId: string, now: string)
      returns (issues: seq<Issue<Field>>)
      modifies this, store
      ensures issues == ValidateSignUp(form, isEmail)
      ensures issues != [] ==> error == old(error) && navigatedTo == old(navigatedTo)
      ensures issues != [] ==> store.user == old(store.user) && store.isLoading == old(store.isLoading)
      ensures issues != [] ==> store.isAuthenticated == old(store.isAuthenticated)
      ensures issues == [] ==> !store.isLoading
      ensures issues == [] ==> error == None && navigatedTo == Some(Navigation(Destination, false))
      ensures issues == [] ==> store.Valid() && store.isAuthenticated
      ensures issues == [] ==> store.user == Some(AuthStore.MockSignUp(form.name, form.email, form.password, randomId, now))
    {
      issues := ValidateSignUp(form, isEmail);
      if issues == [] {
        error := None;
        store.SignUp(form.name, form.email, form.password, randomId, now);
        navigatedTo := Some(Navigation(Destination, false));
      }
    }
  }

  /** The "Create Account" button is disabled while the store has a call in
      flight. */
  predicate SubmitDisabled(store: AuthStore.SessionStore)
    reads store
  {
    store.isLoading
  }
}
