/**
 * The accounts app's GitHub endpoints: `validate_github_pat`,
 * `check_pat_status` and `list_github_repos`.  What GitHub answers is an
 * input; the listing of a user's repositories yields its items in order
 * and may fail when iteration asks for the item after the last one.
 */
module UserViews {
  import opened Wrappers
  import opened Text
  import opened UserSerializers

  /** An exception raised while talking to GitHub: a `GithubException` or any other. */
  datatype ApiError = GithubApiError(message: string) | OtherError(message: string)

  // ---------------------------------------------------------------- PAT validation

  /** The body of a `validate_github_pat` response; `isValid` is absent for a serializer error. */
  datatype PatResponse = PatResponse(status: int, isValid: Option<bool>, username: Option<string>, message: string)

  /**
   * `validate_github_pat`.  `token` is the serializer's validated token,
   * none when the serializer rejects the request; `login` is what
   * `get_user().login` answers with that token.
   */
  function ValidatePat(token: Option<string>, login: Result<string, ApiError>): (r: PatResponse)
    ensures token.None? ==> r.status == 400 && r.isValid.None?
    ensures r.isValid == Some(true) <==> token.Some? && login.Success?
    ensures r.isValid == Some(true) ==>
              r.status == 200 && r.username == Some(login.value)
              && r.message == "Token is valid. Authenticated as " + login.value
    ensures token.Some? && login.Failure? ==>
              r.isValid == Some(false) && r.username.None?
              && (login.error.GithubApiError? ==> r.status == 400 && r.message == "Invalid GitHub token: " + login.error.message)
              && (login.error.OtherError? ==> r.status == 500 && r.message == "Error validating token: " + login.error.message)
  {
    if token.None? then PatResponse(400, None, None, "")
    else
      match login
      case Success(name) => PatResponse(200, Some(true), Some(name), "Token is valid. Authenticated as " + name)
      case Failure(GithubApiError(m)) => PatResponse(400, Some(false), None, "Invalid GitHub token: " + m)
      case Failure(OtherError(m)) => PatResponse(500, Some(false), None, "Error validating token: " + m)
  }

  /** Only a successful lookup answers 200; the status tells the three outcomes apart. */
  lemma ValidatePatStatus(token: Option<string>, login: Result<string, ApiError>)
    requires token.Some?
    ensures ValidatePat(token, login).status == 200 <==> login.Success?
    ensures ValidatePat(token, login).status == 400 <==> login.Failure? && login.error.GithubApiError?
    ensures ValidatePat(token, login).status == 500 <==> login.Failure? && login.error.OtherError?
  {
  }

  /** The body of a `check_pat_status` response. */
  datatype PatStatus = PatStatus(hasToken: bool, githubUsername: Option<string>, message: string)

  /** `check_pat_status`: the message says whether a token is stored. */
  function CheckPatStatus(u: User): (r: PatStatus)
    reads u
    ensures r.hasToken <==> u.HasGithubToken()
    ensures r.githubUsername == u.githubUsername
    ensures r.message == "GitHub PAT configured" <==> u.HasGithubToken()
    ensures !u.HasGithubToken() ==> r.message == "GitHub PAT not configured"
  {
    PatStatus(u.HasGithubToken(), u.githubUsername,
              if u.HasGithubToken() then "GitHub PAT configured" else "GitHub PAT not configured")
  }

  // ---------------------------------------------------------------- repository listing

  const TokenNotConfiguredMessage := "GitHub token not configured. Please add your GitHub PAT in settings."
  const DefaultPage := 1
  const DefaultPerPage := 30
  const MaxPerPage := 100
  const DefaultType := "all"
  const DefaultSort := "updated"

  /** One entry of the listing, with the fields the view copies into its response. */
  datatype GhListedRepo = GhListedRepo(
    id: int, name: string, fullName: string, description: Option<string>, htmlUrl: string,
    cloneUrl: string, defaultBranch: string, isPrivate: bool, isFork: bool, stars: int, forks: int,
    language: Option<string>, updatedAt: Option<string>, pushedAt: Option<string>)

  /**
   * `get_user().get_repos(...)`: the items iteration yields, the listing's
   * `totalCount`, and the error raised when iteration asks for one item
   * more (none when the listing simply ends).
   */
  datatype RepoListing = RepoListing(items: seq<GhListedRepo>, totalCount: int, failure: Option<ApiError>)

  /** The body of a successful response. */
  datatype RepoPage = RepoPage(repositories: seq<GhListedRepo>, totalCount: int, page: int, perPage: int,
                               hasNext: bool, hasPrevious: bool)

  datatype ListResponse = Listed(body: RepoPage) | ListRefused(status: int, error: string)

  /** The mapping of an exception to a response. */
  function ListError(e: ApiError): (r: ListResponse)
    ensures r.ListRefused?
    ensures e.GithubApiError? <==> r.status == 400
    ensures e.OtherError? <==> r.status == 500
  {
    match e
    case GithubApiError(m) => ListRefused(400, "GitHub API error: " + m)
    case OtherError(m) => ListRefused(500, "Error fetching repositories: " + m)
  }

  /** `min(int(per_page), 100)`, 30 when absent. */
  function PerPage(perPageParam: Option<int>): (n: int)
    ensures n <= MaxPerPage
    ensures perPageParam.None? ==> n == DefaultPerPage
    ensures perPageParam.Some? && perPageParam.value <= MaxPerPage ==> n == perPageParam.value
    ensures perPageParam.Some? && perPageParam.value > MaxPerPage ==> n == MaxPerPage
  {
    var requested := if perPageParam.Some? then perPageParam.value else DefaultPerPage;
    if requested < MaxPerPage then requested else MaxPerPage
  }

  function PageNumber(pageParam: Option<int>): int {
    if pageParam.Some? then pageParam.value else DefaultPage
  }

  function Clamp(x: int, n: nat): (c: nat)
    ensures c <= n
    ensures 0 <= x <= n ==> c == x
  {
    if x < 0 then 0 else if x > n then n else x
  }

  /** The items of `s` whose indices lie in `[start, end)`. */
  function Window<T>(s: seq<T>, start: int, end: int): (w: seq<T>)
    ensures start >= end ==> w == []
    ensures start < end ==> w == s[Clamp(start, |s|)..Clamp(end, |s|)]
  {
    if start >= end then [] else s[Clamp(start, |s|)..Clamp(end, |s|)]
  }

  /**
   * The index at which the view's loop breaks: the first `i` that is
   * neither below `start` nor below `end`.  The listing is exhausted, and
   * a failing listing raises, exactly when it has no item at that index.
   */
  function BreakIndex(start: int, end: int): nat {
    if start >= end && start >= 0 then start else if end >= 0 then end else 0
  }

  /**
   * `list_github_repos`.  `asked` is the type and sort passed to
   * `get_repos` (none when GitHub is not called); `github` is what
   * `get_user`, `get_repos` and `totalCount` answer.  The loop skips the
   * items before the window and breaks at its end.
   */
  method ListGithubRepos(token: Option<string>, pageParam: Option<int>, perPageParam: Option<int>,
                         typeParam: Option<string>, sortParam: Option<string>,
                         github: Result<RepoListing, ApiError>)
    returns (r: ListResponse, asked: Option<(string, string)>)
    ensures token.None? || token.value == "" ==> r == ListRefused(400, TokenNotConfiguredMessage) && asked == None
    ensures token.Some? && token.value != "" ==>
              asked == Some((if typeParam.Some? then typeParam.value else DefaultType,
                             if sortParam.Some? then sortParam.value else DefaultSort))
    ensures token.Some? && token.value != "" && github.Failure? ==> r == ListError(github.error)
    ensures token.Some? && token.value != "" && github.Success? ==>
              var page, perPage := PageNumber(pageParam), PerPage(perPageParam);
              var start := (page - 1) * perPage;
              var end := start + perPage;
              var l := github.value;
              if l.failure.Some? && |l.items| <= BreakIndex(start, end) then r == ListError(l.failure.value)
              else r == Listed(RepoPage(Window(l.items, start, end), l.totalCount, page, perPage,
                                        end < l.totalCount, page > 1))
  {
    if token.None? || token.value == "" {
      return ListRefused(400, TokenNotConfiguredMessage), None;
    }
    var page := if pageParam.Some? then pageParam.value else 1;
    var requested := if perPageParam.Some? then perPageParam.value else 30;
    var perPage := if requested < 100 then requested else 100;
    var repoType := if typeParam.Some? then typeParam.value else "all";
    var sort := if sortParam.Some? then sortParam.value else "updated";
    asked := Some((repoType, sort));
    if github.Failure? {
      return ListError(github.error), asked;
    }
    var listing := github.value;
    var startIdx := (page - 1) * perPage;
    var endIdx := startIdx + perPage;

    var repos, exhausted := CollectWindow(listing.items, startIdx, endIdx);
    if exhausted && listing.failure.Some? {
      return ListError(listing.failure.value), asked;
    }
    r := Listed(RepoPage(repos, listing.totalCount, page, perPage, endIdx < listing.totalCount, page > 1));
  }

  /**
   * The view's `for i, repo in enumerate(repos)` loop: items before
   * `start` are skipped, the loop breaks at the first index past the
   * window, and `exhausted` says whether it ran out of items instead.
   */
  method CollectWindow<T>(items: seq<T>, start: int, end: int) returns (repos: seq<T>, exhausted: bool)
    ensures repos == Window(items, start, end)
    ensures exhausted <==> |items| <= BreakIndex(start, end)
  {
    repos := [];
    var i := 0;
    exhausted := true;
    while i < |items|
      invariant 0 <= i <= |items|
      invariant i <= BreakIndex(start, end)
      invariant repos == Window(items[..i], start, end)
    {
      if i < start {
        i := i + 1;
        continue;
      }
      if i >= end {
        exhausted := false;
        break;
      }
      WindowGrows(items, i, start, end);
      repos := repos + [items[i]];
      i := i + 1;
    }
    WindowSettles(items, i, start, end);
  }

  /** Taking item `i` inside the window extends the window over the first `i` items by that item. */
  lemma WindowGrows<T>(s: seq<T>, i: nat, start: int, end: int)
    requires i < |s| && start <= i < end
    ensures Window(s[..i + 1], start, end) == Window(s[..i], start, end) + [s[i]]
  {
    var lo := Clamp(start, i);
    assert Clamp(start, i + 1) == lo;
    assert s[..i + 1][lo..i + 1] == s[lo..i + 1];
    assert s[..i][lo..i] == s[lo..i];
    assert s[lo..i + 1] == s[lo..i] + [s[i]];
  }

  /**
   * Once the loop stops (the items are exhausted, or `i` reached the end
   * of the window), the window over the first `i` items is the whole
   * window.
   */
  lemma WindowSettles<T>(s: seq<T>, i: nat, start: int, end: int)
    requires i <= |s|
    requires i == |s| || (i >= start && i >= end)
    ensures Window(s[..i], start, end) == Window(s, start, end)
  {
    if i < |s| && start < end {
      assert Clamp(start, i) == Clamp(start, |s|) && Clamp(end, i) == Clamp(end, |s|);
      assert s[..i][Clamp(start, i)..Clamp(end, i)] == s[Clamp(start, |s|)..Clamp(end, |s|)];
    } else if i == |s| {
      assert s[..i] == s;
    }
  }

  /**
   * For a positive page and page size, the page holds the listing's items
   * from index `(page - 1) * perPage` on, in order, and no more than
   * `perPage` of them.
   */
  lemma WindowIsPage<T>(s: seq<T>, page: int, perPage: int)
    requires page >= 1 && perPage >= 1
    ensures var start := (page - 1) * perPage;
            var w := Window(s, start, start + perPage);
            |w| <= perPage
            && (start < |s| ==> |w| == (if start + perPage <= |s| then perPage else |s| - start))
            && (start >= |s| ==> w == [])
            && forall k :: 0 <= k < |w| ==> w[k] == s[start + k]
  {
    var start := (page - 1) * perPage;
    assert start >= 0 by {
      assert (page - 1) * perPage >= 0 * perPage;
    }
  }

  /** A page number below 1, or a page size below 1, lists nothing. */
  lemma WindowEmptyBelowOne<T>(s: seq<T>, page: int, perPage: int)
    requires page < 1 || perPage < 1
    ensures var start := (page - 1) * perPage;
            Window(s, start, start + perPage) == []
  {
    var start := (page - 1) * perPage;
    if perPage >= 1 {
      assert page <= 0;
      assert start + perPage == page * perPage;
      assert page * perPage <= 0 by {
        assert (-page) * perPage >= 0;
      }
    }
  }

  /** The pages `1..k` in order. */
  function PagesUpTo<T>(s: seq<T>, perPage: nat, k: nat): seq<T> {
    if k == 0 then [] else PagesUpTo(s, perPage, k - 1) + Window(s, (k - 1) * perPage, (k - 1) * perPage + perPage)
  }

  /** Reading pages 1 to `k` in turn yields the listing's first `k * perPage` items, none skipped or repeated. */
  lemma {:induction false} PagesConcatenate<T>(s: seq<T>, perPage: nat, k: nat)
    requires perPage >= 1
    ensures PagesUpTo(s, perPage, k) == s[..Clamp(k * perPage, |s|)]
  {
    if k > 0 {
      PagesConcatenate(s, perPage, k - 1);
      var a, b := Clamp((k - 1) * perPage, |s|), Clamp(k * perPage, |s|);
      assert (k - 1) * perPage + perPage == k * perPage;
      assert a <= b;
      assert s[..a] + s[a..b] == s[..b];
    }
  }

  /**
   * When `totalCount` is the listing's length, `has_next` holds exactly
   * when the following page is not empty.
   */
  lemma HasNextIffMore<T>(s: seq<T>, page: int, perPage: int)
    requires page >= 1 && perPage >= 1
    ensures var end := (page - 1) * perPage + perPage;
            (end < |s|) <==> Window(s, end, end + perPage) != []
  {
    var end := (page - 1) * perPage + perPage;
    assert end == page * perPage;
    assert end >= 0 by {
      assert page * perPage >= 1 * perPage;
    }
  }
}
