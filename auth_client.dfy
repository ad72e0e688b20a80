/**
 * The browser side of authentication (`authApi`): the `auth_token` entry
 * of local storage and what each call does with it.  A request's answer
 * is an input: the response body, or the error the HTTP client rejects
 * with.
 */
module AuthClient {
  import opened Wrappers

  /** The profile the accounts endpoints answer with (`UserSerializer`). */
  datatype Profile = Profile(email: string, username: string, githubUsername: Option<string>, hasGithubToken: bool)

  /** A value in an error body: a serializer's list of messages, or a plain string. */
  datatype ErrorValue = Messages(items: seq<string>) | Text(text: string)

  /** `err.response?.data`: absent when the request got no response. */
  datatype HttpError = HttpError(data: Option<map<string, ErrorValue>>)

  /** The body of a successful signup or login. */
  datatype AuthResponse = AuthResponse(user: Profile, token: Option<string>, message: string)

  /** `data?.[field]?.[0]` when it is truthy: the first message, or the first character of a string. */
  function FirstOf(data: Option<map<string, ErrorValue>>, field: string): (r: Option<string>)
    ensures r.Some? ==> r.value != "" && data.Some? && field in data.value
    ensures r.Some? && data.value[field].Messages? ==>
              |data.value[field].items| > 0 && r.value == data.value[field].items[0]
  {
    if data.None? || field !in data.value then None
    else match data.value[field]
      case Messages(items) => if |items| > 0 && items[0] != "" then Some(items[0]) else None
      case Text(t) => if |t| > 0 then Some([t[0]]) else None
  }

  /**
   * `a?.[0] || b?.[0] || ... || fallback`: the first message found among
   * `fields`, in order, else the fallback.
   */
  function FirstMessage(data: Option<map<string, ErrorValue>>, fields: seq<string>, fallback: string): (m: string)
    ensures (forall i :: 0 <= i < |fields| ==> FirstOf(data, fields[i]).None?) ==> m == fallback
    ensures forall i :: 0 <= i < |fields| && FirstOf(data, fields[i]).Some?
                        && (forall j :: 0 <= j < i ==> FirstOf(data, fields[j]).None?) ==>
                        m == FirstOf(data, fields[i]).value
    decreases |fields|
  {
    if |fields| == 0 then fallback
    else if FirstOf(data, fields[0]).Some? then FirstOf(data, fields[0]).value
    else FirstMessage(data, fields[1..], fallback)
  }

  /** The `auth_token` entry of `localStorage`: absent, or the stored string. */
  class TokenStore {
    var authToken: Option<string>

    constructor (authToken: Option<string>)
      ensures this.authToken == authToken
    {
      this.authToken := authToken;
    }

    /** `isAuthenticated`: `!!localStorage.getItem('auth_token')`. */
    predicate IsAuthenticated()
      reads this`authToken
    {
      authToken.Some? && authToken.value != ""
    }

    /** `getToken`: the stored value, or null. */
    function GetToken(): (t: Option<string>)
      reads this`authToken
      ensures t.Some? <==> authToken.Some?
      ensures t.Some? ==> t.value == authToken.value
      ensures IsAuthenticated() <==> t.Some? && t.value != ""
    {
      authToken
    }

    /** `localStorage.removeItem('auth_token')`. */
    method Remove()
      modifies this`authToken
      ensures authToken == None && !IsAuthenticated()
    {
      authToken := None;
    }

    /**
     * What `signup` and `login` do with a successful response: the token is
     * stored only when it is truthy.
     */
    method KeepToken(token: Option<string>)
      modifies this`authToken
      ensures token.Some? && token.value != "" ==> authToken == token && IsAuthenticated()
      ensures token.None? || token.value == "" ==> authToken == old(authToken)
    {
      if token.Some? && token.value != "" {
        authToken := token;
      }
    }

    /** `authApi.signup`: the response comes back unchanged; a rejected request stores nothing. */
    method Signup(response: Result<AuthResponse, HttpError>) returns (r: Result<AuthResponse, HttpError>)
      modifies this`authToken
      ensures r == response
      ensures response.Success? && response.value.token.Some? && response.value.token.value != "" ==>
                authToken == response.value.token
      ensures response.Failure? || response.value.token.None? || response.value.token.value == "" ==>
                authToken == old(authToken)
    {
      if response.Success? {
        KeepToken(response.value.token);
      }
      r := response;
    }

    /** `authApi.login`: the same handling of the token as `signup`. */
    method Login(response: Result<AuthResponse, HttpError>) returns (r: Result<AuthResponse, HttpError>)
      modifies this`authToken
      ensures r == response
      ensures response.Success? && response.value.token.Some? && response.value.token.value != "" ==>
                authToken == response.value.token
      ensures response.Failure? || response.value.token.None? || response.value.token.value == "" ==>
                authToken == old(authToken)
    {
      if response.Success? {
        KeepToken(response.value.token);
      }
      r := response;
    }

    /**
     * `authApi.logout`: the token is removed only after the POST resolves;
     * a rejected POST leaves it in place and rejects in turn.
     */
    method Logout(post: Result<(), HttpError>) returns (r: Result<(), HttpError>)
      modifies this`authToken
      ensures r == post
      ensures post.Success? ==> authToken == None
      ensures post.Failure? ==> authToken == old(authToken)
    {
      if post.Failure? {
        return post;
      }
      Remove();
      r := post;
    }
  }

  /** The options a caller of `getGitHubRepos` may pass; zero and "" stand for leaving one out. */
  datatype RepoOptions = RepoOptions(page: Option<int>, perPage: Option<int>, repoType: Option<string>, sort: Option<string>)

  /** The query `getGitHubRepos` sends. */
  datatype RepoQuery = RepoQuery(page: int, perPage: int, repoType: string, sort: string)

  /** `options?.x || default`: a missing or falsy option takes its default. */
  function RepoQueryOf(options: Option<RepoOptions>): (q: RepoQuery)
    ensures q.page != 0 && q.perPage != 0 && q.repoType != "" && q.sort != ""
    ensures options.None? ==> q == RepoQuery(1, 30, "all", "updated")
    ensures options.Some? ==>
              q.page == (if options.value.page.Some? && options.value.page.value != 0 then options.value.page.value else 1)
    ensures options.Some? ==>
              q.perPage == (if options.value.perPage.Some? && options.value.perPage.value != 0 then options.value.perPage.value else 30)
    ensures options.Some? ==>
              q.repoType == (if options.value.repoType.Some? && options.value.repoType.value != "" then options.value.repoType.value else "all")
    ensures options.Some? ==>
              q.sort == (if options.value.sort.Some? && options.value.sort.value != "" then options.value.sort.value else "updated")
  {
    var o := if options.Some? then options.value else RepoOptions(None, None, None, None);
    RepoQuery(
      if o.page.Some? && o.page.value != 0 then o.page.value else 1,
      if o.perPage.Some? && o.perPage.value != 0 then o.perPage.value else 30,
      if o.repoType.Some? && o.repoType.value != "" then o.repoType.value else "all",
      if o.sort.Some? && o.sort.value != "" then o.sort.value else "updated")
  }
}
