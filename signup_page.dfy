/**
 * The signup page: its form fields, the error it shows and its own
 * `loading` flag.  The submit handler checks the passwords on the client
 * first (mismatch before length), then calls the provider's `signup`.
 */
module SignupPage {
  import opened Wrappers
  import opened AuthClient
  import opened AuthContext

  const MismatchMessage := "Passwords don't match"
  const TooShortMessage := "Password must be at least 8 characters"
  const SignupFallback := "Failed to create account. Please try again."
  const MinPasswordLength := 8

  /** The fields whose first message the page shows, in order of precedence. */
  const SignupErrorFields := ["email", "username", "password", "password2", "non_field_errors"]

  /** The message shown for a rejected signup. */
  function SignupErrorMessage(data: Option<map<string, ErrorValue>>): string {
    if data.None? then SignupFallback else FirstMessage(data, SignupErrorFields, SignupFallback)
  }

  /**
   * The first present of `email[0]`, `username[0]`, `password[0]`,
   * `password2[0]` and `non_field_errors[0]` is shown; with none of them,
   * or no body at all, the fixed fallback.
   */
  lemma SignupErrorPrecedence(data: Option<map<string, ErrorValue>>)
    ensures var m := SignupErrorMessage(data);
            var e, u, p, p2, n := FirstOf(data, "email"), FirstOf(data, "username"), FirstOf(data, "password"),
                                  FirstOf(data, "password2"), FirstOf(data, "non_field_errors");
            (e.Some? ==> m == e.value)
            && (e.None? && u.Some? ==> m == u.value)
            && (e.None? && u.None? && p.Some? ==> m == p.value)
            && (e.None? && u.None? && p.None? && p2.Some? ==> m == p2.value)
            && (e.None? && u.None? && p.None? && p2.None? && n.Some? ==> m == n.value)
            && (e.None? && u.None? && p.None? && p2.None? && n.None? ==> m == SignupFallback)
  {
    var fs := SignupErrorFields;
    assert fs[0] == "email" && fs[1] == "username" && fs[2] == "password" && fs[3] == "password2"
           && fs[4] == "non_field_errors";
  }

  /** One line of the checklist under the password fields. */
  datatype Requirement = Requirement(met: bool, text: string)

  /** `passwordRequirements`. */
  function PasswordRequirements(password: string, password2: string): (r: seq<Requirement>)
    ensures |r| == 2
    ensures r[0].text == "At least 8 characters" && r[1].text == "Passwords match"
  {
    [Requirement(|password| >= MinPasswordLength, "At least 8 characters"),
     Requirement(password == password2 && |password| > 0, "Passwords match")]
  }

  /** The client checks of the submit handler, in their order. */
  function ClientCheck(password: string, password2: string): (r: Option<string>)
    ensures r.None? <==> password == password2 && |password| >= MinPasswordLength
    ensures password != password2 ==> r == Some(MismatchMessage)
  {
    if password != password2 then Some(MismatchMessage)
    else if |password| < MinPasswordLength then Some(TooShortMessage)
    else None
  }

  /** The checklist is all ticked exactly when the submit handler's own checks pass. */
  lemma RequirementsMatchChecks(password: string, password2: string)
    ensures (forall i :: 0 <= i < |PasswordRequirements(password, password2)| ==> PasswordRequirements(password, password2)[i].met)
            <==> ClientCheck(password, password2).None?
  {
    var r := PasswordRequirements(password, password2);
    if r[0].met && r[1].met {
      assert forall i :: 0 <= i < |r| ==> r[i].met;
    }
  }

  class SignupForm {
    var email: string
    var username: string
    var password: string
    var password2: string
    var error: string
    var loading: bool

    constructor ()
      ensures email == "" && username == "" && password == "" && password2 == ""
      ensures error == "" && !loading
    {
      email, username, password, password2 := "", "", "", "";
      error, loading := "", false;
    }

    /**
     * `handleSubmit`.  `called` says whether `signup` was called and
     * `loadingAtCall` what `loading` was while it ran.  A failed client
     * check shows its message and neither calls `signup` nor touches
     * `loading`; otherwise `loading` is false again at the end.
     */
    method HandleSubmit(auth: AuthProvider, response: Result<AuthResponse, HttpError>)
      returns (called: bool, loadingAtCall: bool)
      modifies this`error, this`loading, auth`user, auth`route, auth.store`authToken
      ensures called <==> ClientCheck(password, password2).None?
      ensures !called ==>
                error == ClientCheck(password, password2).value && loading == old(loading)
                && auth.user == old(auth.user) && auth.route == old(auth.route)
                && auth.store.authToken == old(auth.store.authToken)
      ensures called ==> loadingAtCall && !loading
      ensures called && response.Success? ==>
                error == "" && auth.user == Some(response.value.user) && auth.route == Some("/dashboard")
      ensures called && response.Failure? ==>
                error == SignupErrorMessage(response.error.data) && auth.user == old(auth.user)
    {
      error := "";
      called := false;
      loadingAtCall := loading;
      if password != password2 {
        error := MismatchMessage;
        return;
      }
      if |password| < 8 {
        error := TooShortMessage;
        return;
      }
      loading := true;
      called, loadingAtCall := true, loading;
      var r := auth.Signup(response);
      if r.Failure? {
        var data := r.error.data;
        if data.Some? {
          error := FirstMessage(data, SignupErrorFields, SignupFallback);
        } else {
          error := SignupFallback;
        }
      }
      loading := false;
    }
  }
}
