/**
 * The settings page: the GitHub token input, its validation state and the
 * save of the token and GitHub username through the provider.
 */
module SettingsPage {
  import opened Wrappers
  import opened Text
  import opened AuthClient
  import opened AuthContext

  const EnterTokenMessage := "Please enter a GitHub token"
  const ValidateFallback := "Failed to validate token"
  const SavedMessage := "Settings saved successfully!"
  const SaveFailedMessage := "Failed to save settings. Please try again."

  datatype ValidationStatus = Idle | Valid | Invalid
  datatype Validation = Validation(status: ValidationStatus, message: string)

  datatype SaveKind = Saved | SaveFailed
  datatype SaveMessage = SaveMessage(kind: SaveKind, text: string)

  /** The body of a `validateGitHubPAT` answer. */
  datatype PatBody = PatBody(isValid: bool, username: Option<string>, message: string)

  /** What `handleSave` sends to `updateUser`; `githubToken` is absent when not sent. */
  datatype UpdateRequest = UpdateRequest(githubUsername: string, githubToken: Option<string>)

  /** `` `@${result.username}` ``: a missing username prints as "undefined". */
  function ShownUsername(username: Option<string>): string {
    if username.Some? then username.value else "undefined"
  }

  /**
   * `error.response?.data?.message || fallback`.  A list of messages is
   * truthy even when empty and renders as its items run together.
   */
  function MessageOr(data: Option<map<string, ErrorValue>>, fallback: string): (m: string)
    ensures (data.None? || "message" !in data.value) ==> m == fallback
    ensures data.Some? && "message" in data.value && data.value["message"].Text? ==>
              m == (if data.value["message"].text != "" then data.value["message"].text else fallback)
  {
    if data.None? || "message" !in data.value then fallback
    else match data.value["message"]
      case Text(t) => if t != "" then t else fallback
      case Messages(items) => Join(items, "")
  }

  /** `!githubToken.trim()`: the token is empty or only whitespace. */
  function TokenBlank(token: string): (b: bool)
    ensures b <==> Blank(token)
  {
    TrimEmptyIffBlank(token);
    Trim(token) == ""
  }

  /**
   * What an answer to the validation request shows, and the username
   * field after it: a valid answer fills the username; an invalid one, or
   * a rejected request, shows a message and leaves the username alone.
   */
  function AnswerShown(answer: Result<PatBody, HttpError>, username: string): (r: (Validation, string))
    ensures answer.Success? && answer.value.isValid ==>
              r.0 == Validation(Valid, "Token is valid! Authenticated as @" + ShownUsername(answer.value.username))
              && r.1 == (if answer.value.username.Some? then answer.value.username.value else "")
    ensures answer.Success? && !answer.value.isValid ==> r == (Validation(Invalid, answer.value.message), username)
    ensures answer.Failure? ==> r == (Validation(Invalid, MessageOr(answer.error.data, ValidateFallback)), username)
    ensures r.0.status != Idle
  {
    match answer
    case Success(result) =>
      if result.isValid then
        (Validation(Valid, "Token is valid! Authenticated as @" + ShownUsername(result.username)),
         if result.username.Some? then result.username.value else "")
      else (Validation(Invalid, result.message), username)
    case Failure(e) => (Validation(Invalid, MessageOr(e.data, ValidateFallback)), username)
  }

  class SettingsForm {
    var githubToken: string
    var githubUsername: string
    var validating: bool
    var saving: bool
    var validation: Validation
    var saveMessage: Option<SaveMessage>

    constructor ()
      ensures githubToken == "" && githubUsername == "" && !validating && !saving
      ensures validation == Validation(Idle, "") && saveMessage == None
    {
      githubToken, githubUsername := "", "";
      validating, saving := false, false;
      validation, saveMessage := Validation(Idle, ""), None;
    }

    /** The effect run when the user changes: the username field shows the user's, or "". */
    method SyncUser(user: Option<Profile>)
      modifies this`githubUsername
      ensures user.None? ==> githubUsername == old(githubUsername)
      ensures user.Some? ==>
                githubUsername == if user.value.githubUsername.Some? then user.value.githubUsername.value else ""
    {
      if user.Some? {
        githubUsername := if user.value.githubUsername.Some? then user.value.githubUsername.value else "";
      }
    }

    /** The token input's `onChange`: the new text, and validation back to idle. */
    method EditToken(value: string)
      modifies this`githubToken, this`validation
      ensures githubToken == value && validation == Validation(Idle, "")
    {
      githubToken := value;
      validation := Validation(Idle, "");
    }

    /** The validate button is disabled while validating or while the token is blank. */
    function ValidateDisabled(): (d: bool)
      reads this`validating, this`githubToken
      ensures d <==> validating || Blank(githubToken)
    {
      validating || TokenBlank(githubToken)
    }

    /**
     * `handleValidateToken`.  A blank token is refused without a request
     * (`called` false).  Otherwise `validating` is set while the request
     * runs (`validatingAtCall`) and cleared afterwards, and the answer is
     * shown as `AnswerShown` says.
     */
    method HandleValidateToken(answer: Result<PatBody, HttpError>) returns (called: bool, validatingAtCall: bool)
      modifies this`validation, this`validating, this`githubUsername
      ensures called <==> !Blank(githubToken)
      ensures !called ==>
                validation == Validation(Invalid, EnterTokenMessage)
                && validating == old(validating) && githubUsername == old(githubUsername)
      ensures called ==>
                validatingAtCall && !validating
                && (validation, githubUsername) == AnswerShown(answer, old(githubUsername))
    {
      called, validatingAtCall := false, validating;
      if TokenBlank(githubToken) {
        validation := Validation(Invalid, EnterTokenMessage);
        return;
      }
      called := true;
      validatingAtCall := Request(answer);
    }

    /** The request half of `handleValidateToken`, once the token is known not to be blank. */
    method Request(answer: Result<PatBody, HttpError>) returns (validatingAtCall: bool)
      modifies this`validation, this`validating, this`githubUsername
      ensures validatingAtCall && !validating
      ensures (validation, githubUsername) == AnswerShown(answer, old(githubUsername))
    {
      validating := true;
      validation := Validation(Idle, "");
      validatingAtCall := validating;
      var shown := AnswerShown(answer, githubUsername);
      validation, githubUsername := shown.0, shown.1;
      validating := false;
    }

    /**
     * `handleSave`: the username and (only when non-empty) the token are
     * sent; then the profile is refreshed.  Success clears the token
     * input; a failure of either call keeps it and shows the error.
     * `saving` is set while the calls run and cleared afterwards.
     */
    method HandleSave(auth: AuthProvider, update: Result<Profile, HttpError>, refresh: Result<Profile, HttpError>)
      returns (sent: UpdateRequest, savingAtCall: bool)
      modifies this`saving, this`saveMessage, this`githubToken, auth`user
      ensures sent == UpdateRequest(githubUsername, if old(githubToken) != "" then Some(old(githubToken)) else None)
      ensures savingAtCall && !saving
      ensures var ok := update.Success? && (refresh.Success? || !auth.store.IsAuthenticated());
              (ok ==> saveMessage == Some(SaveMessage(Saved, SavedMessage)) && githubToken == "")
              && (!ok ==> saveMessage == Some(SaveMessage(SaveFailed, SaveFailedMessage)) && githubToken == old(githubToken))
      ensures update.Failure? ==> auth.user == old(auth.user)
      ensures update.Success? ==>
                auth.user == if refresh.Success? && auth.store.IsAuthenticated() then Some(refresh.value) else Some(update.value)
    {
      saving := true;
      saveMessage := None;
      savingAtCall := saving;
      sent := UpdateRequest(githubUsername, if githubToken != "" then Some(githubToken) else None);
      var r := auth.UpdateUser(update);
      if r.Success? {
        var fetched;
        r, fetched := auth.RefreshUser(refresh);
      }
      if r.Success? {
        saveMessage := Some(SaveMessage(Saved, SavedMessage));
        githubToken := "";
      } else {
        saveMessage := Some(SaveMessage(SaveFailed, SaveFailedMessage));
      }
      saving := false;
    }
  }
}
