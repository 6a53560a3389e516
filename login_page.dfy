/** The `Login` page: redirect when already signed in, otherwise the form wired to `login`. */
module LoginPage {
  import opened Wrappers
  import opened Ui
  import Api
  import Auth
  import Storage

  datatype Screen =
    | RedirectHome(to: string, replace: bool)
    | Form(alert: Option<string>, busy: bool)

  /** What the page renders from the context's token, loading flag and error. */
  function Render(token: Option<string>, loading: bool, error: Option<string>): (s: Screen)
    ensures s.RedirectHome? <==> Truthy(token)
    ensures s.RedirectHome? ==> s == RedirectHome("/", true)
    ensures s.Form? ==> s.busy == loading
    ensures s.Form? ==> (s.alert.Some? <==> Truthy(error)) && (s.alert.Some? ==> s.alert == error)
  {
    if Truthy(token) then RedirectHome("/", true)
    else Form(if Truthy(error) then error else None, loading)
  }

  datatype LoginValues = LoginValues(email: string, password: string)

  /**
   * `onFinish`: calls `login` with exactly the submitted email and password
   * and navigates to `/` only when it returned true.
   */
  method OnFinish(auth: Auth.AuthProvider, values: LoginValues, outcome: Auth.LoginOutcome)
    returns (req: Api.Request, navigateTo: Option<string>)
    requires auth.Synced()
    modifies auth`token, auth`user, auth`loading, auth`error, auth.storage
    ensures req == Api.LoginAdmin(values.email, values.password)
    ensures navigateTo.Some? <==> Auth.Judge(outcome).Granted?
    ensures navigateTo.Some? ==>
      && navigateTo.value == "/"
      && auth.token == Some(outcome.data.token) && auth.user == Some(outcome.data.user) && auth.error == None
      && auth.storage.items == old(auth.storage.items)[Storage.AdminTokenKey := outcome.data.token]
    ensures navigateTo.None? ==>
      && auth.token == old(auth.token) && auth.user == old(auth.user)
      && auth.storage.items == old(auth.storage.items)
      && auth.error == Some(Auth.Judge(outcome).message)
    ensures auth.Synced() && !auth.loading
  {
    var success;
    req, success := auth.Login(values.email, values.password, outcome);
    if success {
      navigateTo := Some("/");
    } else {
      navigateTo := None;
    }
  }
}
