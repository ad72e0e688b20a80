/**
 * The accounts app: the `User` row and the rules of its serializers
 * (signup, login, profile update).  The GitHub token is stored encrypted;
 * encryption is abstract here, so a stored token is a `Sealed` value that
 * only `set_github_token` makes.  Django's password hashing is abstract
 * too: `check_password` holds exactly for the password the user was
 * created with.
 */
module UserSerializers {
  import opened Wrappers

  /** The ciphertext `set_github_token` stores for a non-empty token. */
  datatype Sealed = Sealed(plain: string)

  /** A serializer error: the field it is reported under (`""` for `non_field_errors`) and its text. */
  datatype FieldError = FieldError(field: string, message: string)

  const PasswordMismatchMessage := "Password fields didn't match."
  const MissingCredentialsMessage := "Must include 'email' and 'password'"
  const InvalidCredentialsMessage := "Invalid credentials"
  const DisabledMessage := "User account is disabled"

  class User {
    var email: string
    var username: string
    var password: string
    var isActive: bool
    var githubToken: Option<Sealed>
    var githubUsername: Option<string>

    /** `User.objects.create_user(email=..., username=..., password=...)`: active, with no token. */
    constructor (email: string, username: string, password: string)
      ensures this.email == email && this.username == username && this.password == password
      ensures isActive && githubToken == None && githubUsername == None
    {
      this.email := email;
      this.username := username;
      this.password := password;
      isActive := true;
      githubToken := None;
      githubUsername := None;
    }

    /** `has_github_token`: `bool(self.github_token)`; a ciphertext is never empty. */
    predicate HasGithubToken()
      reads this`githubToken
    {
      githubToken.Some?
    }

    /**
     * `set_github_token`: an empty token clears the column, any other is
     * stored sealed.
     */
    method SetGithubToken(token: string)
      modifies this`githubToken
      ensures token == "" ==> githubToken == None
      ensures token != "" ==> githubToken == Some(Sealed(token))
      ensures HasGithubToken() <==> token != ""
    {
      if token == "" {
        githubToken := None;
        return;
      }
      githubToken := Some(Sealed(token));
    }

    /** `get_github_token`: the plain token, or none when no token is stored. */
    function GetGithubToken(): (t: Option<string>)
      reads this`githubToken
      ensures t.Some? <==> HasGithubToken()
      ensures t.Some? ==> githubToken == Some(Sealed(t.value))
    {
      if githubToken.Some? then Some(githubToken.value.plain) else None
    }
  }

  /** The fields of a signup request once each has passed its own validation. */
  datatype SignupData = SignupData(email: string, username: string, password: string, password2: string)

  /** `SignupSerializer.validate`: the two passwords must agree; the error is reported under `password`. */
  function SignupValidate(attrs: SignupData): (r: Result<SignupData, FieldError>)
    ensures r.Success? <==> attrs.password == attrs.password2
    ensures r.Success? ==> r.value == attrs
    ensures r.Failure? ==> r.error == FieldError("password", PasswordMismatchMessage)
  {
    if attrs.password != attrs.password2 then Failure(FieldError("password", PasswordMismatchMessage))
    else Success(attrs)
  }

  /**
   * `SignupSerializer.create`: `password2` is dropped and the user is made
   * from the email, the username and the password alone.
   */
  method SignupCreate(attrs: SignupData) returns (u: User)
    requires SignupValidate(attrs).Success?
    ensures fresh(u)
    ensures u.email == attrs.email && u.username == attrs.username && u.password == attrs.password
    ensures u.isActive && !u.HasGithubToken() && u.githubUsername == None
  {
    u := new User(attrs.email, attrs.username, attrs.password);
  }

  /**
   * `LoginSerializer.validate`.  `users` are the accounts by email (the
   * column is unique).  Both credentials must be non-empty; an unknown
   * email and a wrong password get the same message; the account's active
   * flag is looked at only once the password matched.
   */
  function LoginValidate(email: Option<string>, password: Option<string>, users: map<string, User>)
    : (r: Result<User, string>)
    reads users.Values
    ensures (email.None? || email.value == "" || password.None? || password.value == "") ==>
              r == Failure(MissingCredentialsMessage)
    ensures r.Success? <==>
              email.Some? && email.value != "" && password.Some? && password.value != ""
              && email.value in users && users[email.value].password == password.value
              && users[email.value].isActive
    ensures r.Success? ==> r.value == users[email.value]
  {
    if email.Some? && email.value != "" && password.Some? && password.value != "" then
      if email.value !in users then Failure(InvalidCredentialsMessage)
      else
        var user := users[email.value];
        if user.password != password.value then Failure(InvalidCredentialsMessage)
        else if !user.isActive then Failure(DisabledMessage)
        else Success(user)
    else
      Failure(MissingCredentialsMessage)
  }

  /**
   * An unknown email and a wrong password for a known one answer alike, so
   * the response does not tell which accounts exist; and an account is
   * reported disabled only to someone who gave its password.
   */
  lemma LoginDoesNotRevealAccounts(unknown: string, known: string, wrong: string, password: string,
                                   users: map<string, User>)
    requires unknown != "" && unknown !in users
    requires known != "" && known in users && wrong != "" && wrong != users[known].password
    requires password != ""
    ensures LoginValidate(Some(unknown), Some(password), users) == LoginValidate(Some(known), Some(wrong), users)
    ensures LoginValidate(Some(unknown), Some(password), users) == Failure(InvalidCredentialsMessage)
  {
  }

  lemma LoginDisabledAfterPassword(email: Option<string>, password: Option<string>, users: map<string, User>)
    requires LoginValidate(email, password, users) == Failure(DisabledMessage)
    ensures email.Some? && email.value in users && password.Some?
    ensures users[email.value].password == password.value && !users[email.value].isActive
  {
  }

  /**
   * The fields a profile update supplies.  `githubUsername` is absent or a
   * value (possibly null); `githubToken` is absent or a string.
   */
  datatype ProfileAttrs = ProfileAttrs(username: Option<string>, githubUsername: Option<Option<string>>,
                                       githubToken: Option<string>)

  /**
   * `ProfileUpdateSerializer.update`: the supplied basic fields overwrite
   * the row; an omitted token leaves it alone, an empty one clears it, any
   * other is stored.
   */
  method ProfileUpdate(u: User, attrs: ProfileAttrs)
    modifies u`username, u`githubUsername, u`githubToken
    ensures u.username == if attrs.username.Some? then attrs.username.value else old(u.username)
    ensures u.githubUsername == if attrs.githubUsername.Some? then attrs.githubUsername.value else old(u.githubUsername)
    ensures attrs.githubToken.None? ==> u.githubToken == old(u.githubToken)
    ensures attrs.githubToken == Some("") ==> u.githubToken == None
    ensures attrs.githubToken.Some? && attrs.githubToken.value != "" ==>
              u.githubToken == Some(Sealed(attrs.githubToken.value))
              && u.GetGithubToken() == Some(attrs.githubToken.value)
  {
    if attrs.username.Some? {
      u.username := attrs.username.value;
    }
    if attrs.githubUsername.Some? {
      u.githubUsername := attrs.githubUsername.value;
    }
    if attrs.githubToken.Some? {
      if attrs.githubToken.value != "" {
        u.SetGithubToken(attrs.githubToken.value);
      } else {
        u.githubToken := None;
      }
    }
  }
}
