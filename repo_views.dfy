/**
 * `RepositoryViewSet`: the guards of `create`, the status guard of
 * `reanalyze` and `create_export`, and the query parameters of the
 * `commit_groups`, `pull_requests` and `issues` listings.  GitHub is a
 * lookup from a full name to what `get_repo` answers; queueing a task is
 * a result of the view, not a call.
 */
module RepositoryViews {
  import opened Wrappers
  import opened Text
  import opened Models
  import opened RepositorySerializers
  import opened Fetch
  import opened Tasks

  const TokenNotConfiguredMessage := "GitHub token not configured. Please add your GitHub PAT in settings."
  const NotFoundMessage := "Repository not found. Please check the URL and ensure you have access."
  const InProgressMessage := "Analysis is already in progress."
  const ReanalysisStartedMessage := "Re-analysis started."
  const ExportNotReadyMessage := "Repository analysis must be completed before exporting."
  const ExportStartedMessage := "Export generation started."

  function BranchNotFoundMessage(branch: string): string {
    "Branch '" + branch + "' not found in repository."
  }

  /** What `get_repo(full_name)` tells the create view; `branches` are the names `get_branch` finds. */
  datatype GhRepoInfo = GhRepoInfo(defaultBranch: string, description: Option<string>,
                                   stars: int, forks: int, openIssues: int, branches: set<string>)

  /** An error response: its HTTP status and its `error` text (or the serializer's message). */
  datatype Refusal = Refusal(status: int, error: string)

  /** What the guards of `create` let through: the parsed names and the GitHub answer. */
  datatype CreateTarget = CreateTarget(owner: string, repoName: string, info: GhRepoInfo)

  /** `if not github_token`: no token, or an empty one. */
  predicate HasToken(token: Option<string>) {
    token.Some? && token.value != ""
  }

  /** `if selected_branch`: a branch was asked for and is non-empty. */
  predicate BranchRequested(selectedBranch: Option<string>) {
    selectedBranch.Some? && selectedBranch.value != ""
  }

  /** The full name the view looks up: the parsed owner and the cleaned repository name. */
  function LookupName(p: ParsedUrl, cleanup: NameCleanup): string {
    SlashJoin(p.owner, Cleaned(cleanup, p.repo))
  }

  /** The mapping of a `GithubException` raised by `get_repo`: 404 stays 404, anything else is 400. */
  function GithubRefusal(e: GithubError): (r: Refusal)
    ensures r.status == 404 <==> e.status == 404
    ensures r.status != 404 ==> r.status == 400 && StartsWith(r.error, "GitHub API error: ")
  {
    if e.status == 404 then Refusal(404, NotFoundMessage)
    else Refusal(400, "GitHub API error: " + e.message)
  }

  /**
   * The guard chain of `create`, in its order: the URL field, the
   * serializer's `validate` (limit, then duplicate), the token, the GitHub
   * lookup, then the requested branch.  Every refusal is a 400 except a
   * repository GitHub does not find.  `cleanup` is the serializer's name
   * cleanup (`ReplaceAll` as written).
   */
  function CreateGuard(userUrls: set<string>, url: string, selectedBranch: Option<string>,
                       token: Option<string>, github: string -> Result<GhRepoInfo, GithubError>,
                       cleanup: NameCleanup)
    : (r: Result<CreateTarget, Refusal>)
    ensures r.Success? <==>
              ParseUrl(url).Some? && ValidateCreate(userUrls, url).Success? && HasToken(token)
              && github(LookupName(ParseUrl(url).value, cleanup)).Success?
              && (BranchRequested(selectedBranch) ==>
                    selectedBranch.value in github(LookupName(ParseUrl(url).value, cleanup)).value.branches)
    ensures r.Success? ==>
              r.value.owner == ParseUrl(url).value.owner && r.value.repoName == Cleaned(cleanup, ParseUrl(url).value.repo)
              && github(SlashJoin(r.value.owner, r.value.repoName)) == Success(r.value.info)
    ensures r.Failure? ==> r.error.status == 400 || r.error.status == 404
  {
    match ParseUrl(url)
    case None => Failure(Refusal(400, InvalidUrlMessage))
    case Some(p) =>
      match ValidateCreate(userUrls, url)
      case Failure(msg) => Failure(Refusal(400, msg))
      case Success(_) =>
        if !HasToken(token) then Failure(Refusal(400, TokenNotConfiguredMessage))
        else
          match github(LookupName(p, cleanup))
          case Failure(e) => Failure(GithubRefusal(e))
          case Success(info) =>
            if BranchRequested(selectedBranch) && selectedBranch.value !in info.branches
            then Failure(Refusal(400, BranchNotFoundMessage(selectedBranch.value)))
            else Success(CreateTarget(p.owner, Cleaned(cleanup, p.repo), info))
  }

  /** A missing token is refused before GitHub is asked: the answer does not depend on GitHub. */
  lemma CreateTokenBeforeGithub(userUrls: set<string>, url: string, selectedBranch: Option<string>,
                                token: Option<string>, g1: string -> Result<GhRepoInfo, GithubError>,
                                g2: string -> Result<GhRepoInfo, GithubError>, cleanup: NameCleanup)
    requires !HasToken(token)
    ensures CreateGuard(userUrls, url, selectedBranch, token, g1, cleanup) == CreateGuard(userUrls, url, selectedBranch, token, g2, cleanup)
    ensures CreateGuard(userUrls, url, selectedBranch, token, g1, cleanup).Failure?
    ensures ParseUrl(url).Some? && ValidateCreate(userUrls, url).Success? ==>
              CreateGuard(userUrls, url, selectedBranch, token, g1, cleanup) == Failure(Refusal(400, TokenNotConfiguredMessage))
  {
  }

  /** With URL, limits and token in order, a GitHub error is 404 for a missing repository and 400 otherwise. */
  lemma CreateGithubErrors(userUrls: set<string>, url: string, selectedBranch: Option<string>,
                           token: Option<string>, github: string -> Result<GhRepoInfo, GithubError>,
                           cleanup: NameCleanup)
    requires ParseUrl(url).Some? && ValidateCreate(userUrls, url).Success? && HasToken(token)
    requires github(LookupName(ParseUrl(url).value, cleanup)).Failure?
    ensures var e := github(LookupName(ParseUrl(url).value, cleanup)).error;
            CreateGuard(userUrls, url, selectedBranch, token, github, cleanup)
            == Failure(if e.status == 404 then Refusal(404, NotFoundMessage) else Refusal(400, "GitHub API error: " + e.message))
  {
  }

  /** An unknown requested branch is a 400; a blank one is never checked. */
  lemma CreateBranchCheck(userUrls: set<string>, url: string, selectedBranch: Option<string>,
                          token: Option<string>, github: string -> Result<GhRepoInfo, GithubError>,
                          cleanup: NameCleanup)
    requires ParseUrl(url).Some? && ValidateCreate(userUrls, url).Success? && HasToken(token)
    requires github(LookupName(ParseUrl(url).value, cleanup)).Success?
    ensures var info := github(LookupName(ParseUrl(url).value, cleanup)).value;
            BranchRequested(selectedBranch) && selectedBranch.value !in info.branches ==>
              CreateGuard(userUrls, url, selectedBranch, token, github, cleanup)
              == Failure(Refusal(400, BranchNotFoundMessage(selectedBranch.value)))
    ensures !BranchRequested(selectedBranch) ==> CreateGuard(userUrls, url, selectedBranch, token, github, cleanup).Success?
  {
  }

  /** A GitHub Pages repository whose name holds ".git" in the middle. */
  const PagesSiteUrl := "https://github.com/" + "octo" + "/" + "octo.github.io"

  /**
   * What the cleanup as written does to the create view: for
   * `PagesSiteUrl` GitHub is asked for "octo/octohub.io", so where that
   * repository does not exist the create is a 404 even though the
   * repository the URL names exists.
   */
  lemma CreateAsWrittenAsksForWrongRepository(token: Option<string>, github: string -> Result<GhRepoInfo, GithubError>)
    requires HasToken(token)
    requires github("octo/octo.github.io").Success?
    requires github("octo/octohub.io").Failure? && github("octo/octohub.io").error.status == 404
    ensures CreateGuard({}, PagesSiteUrl, None, token, github, ReplaceAll) == Failure(Refusal(404, NotFoundMessage))
  {
    PagesSiteParses();
    PagesSiteAsWrittenName();
    assert ValidateCreate({}, PagesSiteUrl).Success?;
    CreateGithubErrors({}, PagesSiteUrl, None, token, github, ReplaceAll);
  }

  /** With the corrected cleanup the same request finds and stores the repository the URL names. */
  lemma CreateCorrectedFindsRepository(token: Option<string>, github: string -> Result<GhRepoInfo, GithubError>)
    requires HasToken(token)
    requires github("octo/octo.github.io").Success?
    ensures CreateGuard({}, PagesSiteUrl, None, token, github, StripSuffix)
            == Success(CreateTarget("octo", "octo.github.io", github("octo/octo.github.io").value))
  {
    PagesSiteParses();
    PagesSiteCorrectedName();
    assert ValidateCreate({}, PagesSiteUrl).Success?;
    CreateBranchCheck({}, PagesSiteUrl, None, token, github, StripSuffix);
    var t := CreateGuard({}, PagesSiteUrl, None, token, github, StripSuffix).value;
    assert t.owner == "octo" && t.repoName == "octo.github.io";
    assert SlashJoin(t.owner, t.repoName) == "octo/octo.github.io";
  }

  /** `PagesSiteUrl` parses into owner "octo" and repository "octo.github.io". */
  lemma PagesSiteParses()
    ensures ParseUrl(PagesSiteUrl) == Some(ParsedUrl("octo", "octo.github.io"))
  {
    RepoNameAsWrittenMangles();
  }

  /** The name looked up for `PagesSiteUrl` with the cleanup as written. */
  lemma PagesSiteAsWrittenName()
    ensures LookupName(ParsedUrl("octo", "octo.github.io"), ReplaceAll) == "octo/octohub.io"
  {
    RepoNameAsWrittenMangles();
  }

  /** The name looked up for `PagesSiteUrl` with the corrected cleanup. */
  lemma PagesSiteCorrectedName()
    ensures Cleaned(StripSuffix, "octo.github.io") == "octo.github.io"
    ensures LookupName(ParsedUrl("octo", "octo.github.io"), StripSuffix) == "octo/octo.github.io"
  {
    assert !EndsWith("octo.github.io", ".git") by {
      assert "octo.github.io"[10..] == "b.io";
    }
    assert SlashJoin("octo", "octo.github.io") == "octo/octo.github.io";
  }

  /** The response of `create`: the new repository (201, fetch queued) or a refusal. */
  datatype CreateOutcome = Created(repo: Repository) | Refused(refusal: Refusal)

  /**
   * `RepositoryViewSet.create` for `user`, whose repositories have the URLs
   * `userUrls`.  `queried` lists the full names asked of GitHub.  A
   * repository that passes the guards is created pending, with a blank
   * requested branch stored as no branch and a missing description as "".
   */
  method CreateRepository(user: int, userUrls: set<string>, url: string, selectedBranch: Option<string>,
                          token: Option<string>, github: string -> Result<GhRepoInfo, GithubError>,
                          cleanup: NameCleanup)
    returns (r: CreateOutcome, queried: seq<string>)
    ensures var guard := CreateGuard(userUrls, url, selectedBranch, token, github, cleanup);
            (r.Refused? <==> guard.Failure?) && (r.Refused? ==> r.refusal == guard.error)
    ensures queried == if ParseUrl(url).Some? && ValidateCreate(userUrls, url).Success? && HasToken(token)
                       then [LookupName(ParseUrl(url).value, cleanup)] else []
    ensures r.Created? ==>
              var t := CreateGuard(userUrls, url, selectedBranch, token, github, cleanup).value;
              fresh(r.repo) && r.repo.user == user && r.repo.githubRepoUrl == url
              && r.repo.owner == t.owner && r.repo.repoName == t.repoName
              && r.repo.analysisStatus == Pending && r.repo.analysisError == None
              && r.repo.selectedBranch == (if BranchRequested(selectedBranch) then selectedBranch else None)
              && r.repo.defaultBranch == t.info.defaultBranch
              && r.repo.description == Some(if t.info.description.Some? then t.info.description.value else "")
              && r.repo.starsCount == t.info.stars && r.repo.forksCount == t.info.forks
              && r.repo.openIssuesCount == t.info.openIssues
              && r.repo.commits == map[] && r.repo.commitGroups == []
  {
    queried := [];
    var serializer := new CreateSerializer();
    var field := serializer.ValidateGithubRepoUrl(url, cleanup);
    if field.Failure? {
      return Refused(Refusal(400, field.error)), queried;
    }
    var check := ValidateCreate(userUrls, url);
    if check.Failure? {
      return Refused(Refusal(400, check.error)), queried;
    }
    var owner := serializer.context["owner"];
    var repoName := serializer.context["repo_name"];
    if token.None? || token.value == "" {
      return Refused(Refusal(400, TokenNotConfiguredMessage)), queried;
    }
    var fullName := SlashJoin(owner, repoName);
    queried := [fullName];
    var answer := github(fullName);
    if answer.Failure? {
      if answer.error.status == 404 {
        return Refused(Refusal(404, NotFoundMessage)), queried;
      }
      return Refused(Refusal(400, "GitHub API error: " + answer.error.message)), queried;
    }
    var info := answer.value;
    var description := if info.description.Some? then info.description.value else "";
    if selectedBranch.Some? && selectedBranch.value != "" && selectedBranch.value !in info.branches {
      return Refused(Refusal(400, BranchNotFoundMessage(selectedBranch.value))), queried;
    }
    var stored := if selectedBranch.Some? && selectedBranch.value != "" then selectedBranch else None;
    var repo := new Repository(user, url, owner, repoName, description, info.defaultBranch, stored,
                               info.stars, info.forks, info.openIssues);
    r := Created(repo);
  }

  /**
   * `reanalyze`: refused (400) while a fetch or an analysis is running,
   * with nothing changed; otherwise the repository goes back to pending
   * with its error cleared and a fetch is queued.
   */
  method Reanalyze(repo: Repository) returns (status: int, message: string, queued: bool)
    modifies repo`analysisStatus, repo`analysisError
    ensures old(repo.analysisStatus) in {Fetching, Analyzing} ==>
              status == 400 && message == InProgressMessage && !queued
              && repo.analysisStatus == old(repo.analysisStatus) && repo.analysisError == old(repo.analysisError)
    ensures old(repo.analysisStatus) !in {Fetching, Analyzing} ==>
              status == 200 && message == ReanalysisStartedMessage && queued
              && repo.analysisStatus == Pending && repo.analysisError == None
    ensures old(repo.ErrorMatchesStatus()) ==> repo.ErrorMatchesStatus()
  {
    if repo.analysisStatus == Fetching || repo.analysisStatus == Analyzing {
      return 400, InProgressMessage, false;
    }
    repo.analysisStatus := Pending;
    repo.analysisError := None;
    status, message, queued := 200, ReanalysisStartedMessage, true;
  }

  /**
   * A refused re-analysis changes nothing, so it cannot interrupt a
   * running chain; an accepted one followed by the chain ends settled.
   */
  method ReanalyzeThenRun(repo: Repository, token: Option<string>, remote: Result<RemoteRepo, GithubError>,
                          aiAvailable: bool, failure: SummaryFailure, now: int, deletion: GroupDeletion)
    returns (status: int, outcome: Option<Outcome>)
    modifies repo
    ensures old(repo.analysisStatus) in {Fetching, Analyzing} <==> status == 400
    ensures status == 400 ==> outcome == None && repo.analysisStatus == old(repo.analysisStatus)
    ensures status == 200 ==> outcome.Some? && repo.ErrorMatchesStatus()
    ensures outcome.Some? && outcome.value != Retried ==> Settled(repo.analysisStatus)
  {
    var message, queued;
    status, message, queued := Reanalyze(repo);
    if !queued {
      return status, None;
    }
    var o := RunAnalysis(repo, token, remote, aiAvailable, failure, now, deletion);
    outcome := Some(o);
  }

  /**
   * The guards of `create_export`: the status is checked before the body
   * (`bodyValid` is whether `CreateExportSerializer` accepts it); an
   * accepted request answers 202.
   */
  function CreateExport(status: AnalysisStatus, bodyValid: bool): (r: Refusal)
    ensures r.status == 202 <==> status == Completed && bodyValid
    ensures status != Completed ==> r == Refusal(400, ExportNotReadyMessage)
    ensures status == Completed && !bodyValid ==> r.status == 400 && r.error != ExportNotReadyMessage
  {
    if status != Completed then Refusal(400, ExportNotReadyMessage)
    else if !bodyValid then Refusal(400, "")
    else Refusal(202, ExportStartedMessage)
  }

  /** `request.query_params.get('detail', 'false').lower() == 'true'`. */
  function UseDetail(detail: Option<string>): (r: bool)
    ensures r <==> detail.Some? && |detail.value| == 4
                   && detail.value[0] in "tT" && detail.value[1] in "rR"
                   && detail.value[2] in "uU" && detail.value[3] in "eE"
  {
    var lowered := AsciiLower(if detail.Some? then detail.value else "false");
    assert |lowered| == 4 ==> lowered == [lowered[0], lowered[1], lowered[2], lowered[3]];
    lowered == "true"
  }

  /** `filter(state=state)` when `state` is given and non-empty; otherwise every row. */
  function FilterPullRequests(prs: map<int, PullRequestRow>, state: Option<string>): (r: map<int, PullRequestRow>)
    ensures state.None? || state.value == "" ==> r == prs
    ensures state.Some? && state.value != "" ==>
              (forall n :: n in r <==> n in prs && PrStateValue(prs[n].state) == state.value)
    ensures forall n :: n in r ==> n in prs && r[n] == prs[n]
  {
    if state.None? || state.value == "" then prs
    else map n | n in prs && PrStateValue(prs[n].state) == state.value :: prs[n]
  }

  /** The same filter on the issues listing. */
  function FilterIssues(issues: map<int, IssueRow>, state: Option<string>): (r: map<int, IssueRow>)
    ensures state.None? || state.value == "" ==> r == issues
    ensures state.Some? && state.value != "" ==>
              (forall n :: n in r <==> n in issues && IssueStateValue(issues[n].state) == state.value)
    ensures forall n :: n in r ==> n in issues && r[n] == issues[n]
  {
    if state.None? || state.value == "" then issues
    else map n | n in issues && IssueStateValue(issues[n].state) == state.value :: issues[n]
  }

  /**
   * The three state filters split the pull requests: every one is in
   * exactly one of them, and any other state value lists none.
   */
  lemma PullRequestFiltersPartition(prs: map<int, PullRequestRow>, other: string)
    requires other != "" && other !in {"open", "closed", "merged"}
    ensures var o, c, m := FilterPullRequests(prs, Some("open")), FilterPullRequests(prs, Some("closed")),
                           FilterPullRequests(prs, Some("merged"));
            o.Keys + c.Keys + m.Keys == prs.Keys
            && o.Keys !! c.Keys && o.Keys !! m.Keys && c.Keys !! m.Keys
    ensures FilterPullRequests(prs, Some(other)) == map[]
  {
    var o, c, m := FilterPullRequests(prs, Some("open")), FilterPullRequests(prs, Some("closed")),
                   FilterPullRequests(prs, Some("merged"));
    forall n | n in prs ensures n in o.Keys + c.Keys + m.Keys {
      match prs[n].state
      case PrOpen =>
      case PrClosed =>
      case PrMerged =>
    }
    forall n | n in prs ensures PrStateValue(prs[n].state) != other {
    }
    assert FilterPullRequests(prs, Some(other)).Keys == {};
  }

  /** The open and closed filters split the issues; any other state value lists none. */
  lemma IssueFiltersPartition(issues: map<int, IssueRow>, other: string)
    requires other != "" && other !in {"open", "closed"}
    ensures var o, c := FilterIssues(issues, Some("open")), FilterIssues(issues, Some("closed"));
            o.Keys + c.Keys == issues.Keys && o.Keys !! c.Keys
    ensures FilterIssues(issues, Some(other)) == map[]
  {
    var o, c := FilterIssues(issues, Some("open")), FilterIssues(issues, Some("closed"));
    forall n | n in issues ensures n in o.Keys + c.Keys {
      match issues[n].state
      case IssueOpen =>
      case IssueClosed =>
    }
    forall n | n in issues ensures IssueStateValue(issues[n].state) != other {
    }
    assert FilterIssues(issues, Some(other)).Keys == {};
  }
}
