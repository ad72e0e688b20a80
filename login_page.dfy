/**
 * The login page: its form fields, the error it shows and its own
 * `loading` flag around the provider's `login`.
 */
module LoginPage {
  import opened Wrappers
  import opened AuthClient
  import opened AuthContext

  const LoginFallback := "Invalid credentials. Please try again."

  /** The fields whose first message the page shows, in order of precedence. */
  const LoginErrorFields := ["email", "password", "non_field_errors"]

  /** The message shown for a rejected login. */
  function LoginErrorMessage(data: Option<map<string, ErrorValue>>): string {
    FirstMessage(data, LoginErrorFields, LoginFallback)
  }

  /**
   * The first present of `email[0]`, `password[0]` and
   * `non_field_errors[0]` is shown, else the fixed fallback; so the
   * backend's "Invalid credentials" (a non-field error) is shown as sent.
   */
  lemma LoginErrorPrecedence(data: Option<map<string, ErrorValue>>)
    ensures var m := LoginErrorMessage(data);
            var e, p, n := FirstOf(data, "email"), FirstOf(data, "password"), FirstOf(data, "non_field_errors");
            (e.Some? ==> m == e.value)
            && (e.None? && p.Some? ==> m == p.value)
            && (e.None? && p.None? && n.Some? ==> m == n.value)
            && (e.None? && p.None? && n.None? ==> m == LoginFallback)
  {
    var fs := LoginErrorFields;
    assert fs[0] == "email" && fs[1] == "password" && fs[2] == "non_field_errors";
  }

  class LoginForm {
    var email: string
    var password: string
    var error: string
    var loading: bool

    constructor ()
      ensures email == "" && password == "" && error == "" && !loading
    {
      email, password := "", "";
      error, loading := "", false;
    }

    /**
     * `handleSubmit`: the error is cleared and `loading` set while `login`
     * runs (`loadingAtCall`); afterwards `loading` is false whatever the
     * answer, and a rejection shows its message.
     */
    method HandleSubmit(auth: AuthProvider, response: Result<AuthResponse, HttpError>)
      returns (loadingAtCall: bool)
      modifies this`error, this`loading, auth`user, auth`route, auth.store`authToken
      ensures loadingAtCall && !loading
      ensures response.Success? ==>
                error == "" && auth.user == Some(response.value.user) && auth.route == Some("/dashboard")
      ensures response.Failure? ==>
                error == LoginErrorMessage(response.error.data)
                && auth.user == old(auth.user) && auth.route == old(auth.route)
    {
      error := "";
      loading := true;
      loadingAtCall := loading;
      var r := auth.Login(response);
      if r.Failure? {
        error := FirstMessage(r.error.data, LoginErrorFields, LoginFallback);
      }
      loading := false;
    }
  }
}
