/** The sign-in page: its schema, the redirect target after signing in, and the
    submit handler that drives the session store. */
module SignIn {
  import opened Wrappers
  import opened Schema
  import opened Submission
  import AuthStore

  datatype SignInForm = SignInForm(email: string, password: string)

  datatype Field = EmailField | PasswordField

  /** `signInSchema`. `isEmail` stands for zod's email check. */
  function ValidateSignIn(form: SignInForm, isEmail: string -> bool): (issues: seq<Issue<Field>>)
    ensures EmailField in Fields(issues) <==> !isEmail(form.email)
    ensures PasswordField in Fields(issues) <==> |form.password| < 6
    ensures issues == [] <==> isEmail(form.email) && |form.password| >= 6
  {
    var i1 := Rule(isEmail(form.email), EmailField, "Please enter a valid email address");
    var i2 := Rule(|form.password| >= 6, PasswordField, "Password must be at least 6 characters");
    FieldsAppend(i1, i2);
    FieldsEmpty(i1 + i2);
    i1 + i2
  }

  /** The router location the page was sent from, as far as the page reads it:
      `location.state?.from?.pathname`. Each level may be missing. */
  datatype FromLocation = FromLocation(pathname: Option<string>)
  datatype RouteState = RouteState(from: Option<FromLocation>)

  const DefaultTarget := "/dashboard"

  /** `location.state?.from?.pathname || '/dashboard'`: a missing or empty
      pathname falls back to the dashboard. */
  function RedirectTarget(state: Option<RouteState>): (target: string)
    ensures target != ""
    ensures target == DefaultTarget <==>
              state.None? || state.value.from.None? || state.value.from.value.pathname.None?
              || state.value.from.value.pathname.value in {"", DefaultTarget}
    ensures target != DefaultTarget ==> target == state.value.from.value.pathname.value
  {
    if state.Some? && state.value.from.Some? && state.value.from.value.pathname.Some?
       && state.value.from.value.pathname.value != ""
    then state.value.from.value.pathname.value
    else DefaultTarget
  }

  /** A non-empty pathname the user came from is where they are sent back. */
  lemma RedirectBack(path: string)
    requires path != ""
    ensures RedirectTarget(Some(RouteState(Some(FromLocation(Some(path)))))) == path
  {
  }

  /** The page's own state. */
  class SignInPage {
    var error: Option<string>
    var navigatedTo: Option<Navigation>

    constructor ()
      ensures error == None && navigatedTo == None
    {
      error := None;
      navigatedTo := None;
    }

    /** Pressing "Sign In": `handleSubmit` validates and, only if no rule fails,
        runs `onSubmit`, which clears the error, awaits the store's `signIn`, and
        then either navigates back (replacing the history entry) or shows the
        rejection's message. */
    method Submit(store: AuthStore.SessionStore, form: SignInForm, isEmail: string -> bool,
                  state: Option<RouteState>, now: string)
      returns (issues: seq<Issue<Field>>)
      requires store.Valid()
      modifies this, store
      ensures store.Valid()
      ensures issues == ValidateSignIn(form, isEmail)
      ensures issues != [] ==> error == old(error) && navigatedTo == old(navigatedTo)
      ensures issues != [] ==> store.user == old(store.user) && store.isLoading == old(store.isLoading)
      ensures issues != [] ==> store.isAuthenticated == old(store.isAuthenticated)
      ensures issues == [] ==> !store.isLoading
      ensures issues == [] && form.email == AuthStore.DemoEmail && form.password == AuthStore.DemoPassword ==>
                error == None && navigatedTo == Some(Navigation(RedirectTarget(state), true))
                && store.user == Some(AuthStore.DemoUser(now))
      ensures issues == [] && !(form.email == AuthStore.DemoEmail && form.password == AuthStore.DemoPassword) ==>
                error == Some(AuthStore.InvalidCredentials) && navigatedTo == old(navigatedTo)
                && store.user == old(store.user)
    {
      issues := ValidateSignIn(form, isEmail);
      if issues == [] {
        error := None;
        var outcome := store.SignIn(form.email, form.password, now);
        if outcome.Ok? {
          navigatedTo := Some(Navigation(RedirectTarget(state), true));
        } else {
          error := Some(ErrorText(ErrorValue(outcome.error)));
        }
      }
    }
  }

  /** The "Sign In" button is disabled while the store has a call in flight. */
  predicate SubmitDisabled(store: AuthStore.SessionStore)
    reads store
  {
    store.isLoading
  }
}
