/**
 * The repository app's tables.  A `Repository` is an object whose fields
 * the tasks and views update in place; the rows that point at it
 * (contributors, commits, commit groups, pull requests, issues) are held
 * as maps from each table's natural key, restricted to that repository.
 */
module Models {
  import opened Wrappers
  import opened Calendar
  import opened Upsert

  /** `Repository.AnalysisStatus`. */
  datatype AnalysisStatus = Pending | Fetching | Analyzing | Completed | Failed

  /** The value stored in the `analysis_status` column. */
  function StatusValue(s: AnalysisStatus): string {
    match s
    case Pending => "pending"
    case Fetching => "fetching"
    case Analyzing => "analyzing"
    case Completed => "completed"
    case Failed => "failed"
  }

  /** The choice a stored value denotes; any other string is not a valid status. */
  function ParseStatus(v: string): Option<AnalysisStatus> {
    if v == "pending" then Some(Pending)
    else if v == "fetching" then Some(Fetching)
    else if v == "analyzing" then Some(Analyzing)
    else if v == "completed" then Some(Completed)
    else if v == "failed" then Some(Failed)
    else None
  }

  /** The column holds one of the five values, and each value reads back as its status. */
  lemma StatusRoundTrip(s: AnalysisStatus, v: string)
    ensures ParseStatus(StatusValue(s)) == Some(s)
    ensures ParseStatus(v).Some? ==> StatusValue(ParseStatus(v).value) == v
  {
  }

  /** `f"{owner}/{repo_name}"`, shared by `full_name` and `__str__`. */
  function SlashJoin(owner: string, repoName: string): (r: string)
    ensures |r| == |owner| + 1 + |repoName|
    ensures r[..|owner|] == owner && r[|owner|] == '/' && r[|owner| + 1..] == repoName
  {
    owner + "/" + repoName
  }

  /** An owner without a slash is recovered from the full name, and so is the repository name. */
  lemma SlashJoinInjective(o1: string, r1: string, o2: string, r2: string)
    requires '/' !in o1 && '/' !in o2
    requires SlashJoin(o1, r1) == SlashJoin(o2, r2)
    ensures o1 == o2 && r1 == r2
  {
  }

  /** `PullRequest.PRState`. */
  datatype PrState = PrOpen | PrClosed | PrMerged

  function PrStateValue(s: PrState): string {
    match s
    case PrOpen => "open"
    case PrClosed => "closed"
    case PrMerged => "merged"
  }

  /** `Issue.IssueState`. */
  datatype IssueState = IssueOpen | IssueClosed

  function IssueStateValue(s: IssueState): string {
    match s
    case IssueOpen => "open"
    case IssueClosed => "closed"
  }

  /** One entry of `CommitData.files_changed`. */
  datatype FileChange = FileChange(filename: string, additions: int, deletions: int, status: string)

  /** One entry of a pull request's or issue's `discussion`. */
  datatype Comment = Comment(author: string, body: string, createdAt: string)

  /** A `Contributor` row, keyed by `github_username`. */
  datatype ContributorRow = ContributorRow(
    githubId: Option<int>, avatarUrl: Option<string>, email: Option<string>,
    totalCommits: int, totalAdditions: int, totalDeletions: int,
    prsOpened: int, prsMerged: int, issuesOpened: int, issuesClosed: int,
    impactScore: int)

  /** The `defaults` `_fetch_contributors` passes to `update_or_create`. */
  datatype ContributorDefaults = ContributorDefaults(
    githubId: Option<int>, avatarUrl: Option<string>, email: Option<string>, contributions: int)

  /**
   * The contributor row `update_or_create` leaves: a new row takes the
   * model's defaults (0) for the statistics it is not given; an existing row
   * keeps them.
   */
  function WriteContributor(existing: Option<ContributorRow>, d: ContributorDefaults): (r: ContributorRow)
    ensures r.githubId == d.githubId && r.avatarUrl == d.avatarUrl && r.email == d.email
    ensures r.totalCommits == d.contributions
    ensures existing.None? ==>
              r.totalAdditions == 0 && r.totalDeletions == 0 && r.prsOpened == 0
              && r.prsMerged == 0 && r.issuesOpened == 0 && r.issuesClosed == 0 && r.impactScore == 0
    ensures existing.Some? ==>
              var e := existing.value;
              r.totalAdditions == e.totalAdditions && r.totalDeletions == e.totalDeletions
              && r.prsOpened == e.prsOpened && r.prsMerged == e.prsMerged
              && r.issuesOpened == e.issuesOpened && r.issuesClosed == e.issuesClosed
              && r.impactScore == e.impactScore
  {
    match existing
    case None => ContributorRow(d.githubId, d.avatarUrl, d.email, d.contributions, 0, 0, 0, 0, 0, 0, 0)
    case Some(row) => row.(githubId := d.githubId, avatarUrl := d.avatarUrl, email := d.email, totalCommits := d.contributions)
  }

  lemma WriteContributorOverwrites()
    ensures Overwriting(WriteContributor)
  {
    forall x: Option<ContributorRow>, d1: ContributorDefaults, d2: ContributorDefaults
      ensures WriteContributor(Some(WriteContributor(x, d1)), d2) == WriteContributor(x, d2)
    {
    }
  }

  /**
   * A `CommitData` row, keyed by `commit_sha`.  The commit's group is not a
   * column here: `Repository.groupOf` holds it, because `_fetch_commits`
   * never writes it.  The contributor is named by its `github_username`.
   * Only the calendar day of `commit_date` is kept.
   */
  datatype CommitRow = CommitRow(
    message: string, date: ValidDate, authorName: string, authorEmail: Option<string>,
    additions: nat, deletions: nat, filesChanged: seq<FileChange>, contributor: Option<string>)

  /** A `PullRequest` row, keyed by `pr_number`. */
  datatype PullRequestRow = PullRequestRow(
    title: string, description: string, author: string, authorAvatarUrl: Option<string>,
    state: PrState, additions: int, deletions: int, changedFiles: int,
    commitShas: seq<string>, labels: seq<string>, discussion: seq<Comment>)

  /** An `Issue` row, keyed by `issue_number`. */
  datatype IssueRow = IssueRow(
    title: string, description: string, author: string, authorAvatarUrl: Option<string>,
    state: IssueState, labels: seq<string>, discussion: seq<Comment>)

  /**
   * The row `update_or_create` leaves when `defaults` names every modelled
   * column (commits, pull requests and issues).
   */
  function Replace<V>(existing: Option<V>, d: V): V {
    d
  }

  /** A later `update_or_create` of the same key leaves what it would have left alone: the last write wins. */
  lemma ReplaceOverwrites<V(!new)>()
    ensures Overwriting(Replace<V>)
  {
  }

  /** A `CommitGroup` row; `start` and `end` are day ordinals of `start_date` and `end_date`. */
  datatype GroupRow = GroupRow(groupType: string, start: int, end: int, commitCount: nat)

  /** `Repository`, with the rows of the tables that point at it. */
  class Repository {
    var user: int
    var githubRepoUrl: string
    var repoName: string
    var owner: string
    var description: Option<string>
    var defaultBranch: string
    var selectedBranch: Option<string>
    var analysisStatus: AnalysisStatus
    /** `last_analyzed_at`, as an opaque timestamp. */
    var lastAnalyzedAt: Option<int>
    var analysisError: Option<string>
    var cronEnabled: bool
    var cronFrequency: Option<string>
    var starsCount: int
    var forksCount: int
    var openIssuesCount: int

    var contributors: map<string, ContributorRow>
    var commits: map<string, CommitRow>
    /** `CommitData.commit_group`: commit SHA to an index into `commitGroups`; absent means NULL. */
    var groupOf: map<string, nat>
    var commitGroups: seq<GroupRow>
    var pullRequests: map<int, PullRequestRow>
    var issues: map<int, IssueRow>

    /**
     * `Repository.objects.create(...)` with the fields the create view
     * passes; every other column takes the model's default.
     */
    constructor (user: int, githubRepoUrl: string, owner: string, repoName: string, description: string,
                 defaultBranch: string, selectedBranch: Option<string>,
                 starsCount: int, forksCount: int, openIssuesCount: int)
      ensures this.user == user && this.githubRepoUrl == githubRepoUrl
      ensures this.owner == owner && this.repoName == repoName && this.description == Some(description)
      ensures this.defaultBranch == defaultBranch && this.selectedBranch == selectedBranch
      ensures this.starsCount == starsCount && this.forksCount == forksCount && this.openIssuesCount == openIssuesCount
      ensures analysisStatus == Pending && analysisError == None && lastAnalyzedAt == None
      ensures !cronEnabled && cronFrequency == None
      ensures contributors == map[] && commits == map[] && groupOf == map[] && commitGroups == []
      ensures pullRequests == map[] && issues == map[]
    {
      this.user := user;
      this.githubRepoUrl := githubRepoUrl;
      this.owner := owner;
      this.repoName := repoName;
      this.description := Some(description);
      this.defaultBranch := defaultBranch;
      this.selectedBranch := selectedBranch;
      this.starsCount := starsCount;
      this.forksCount := forksCount;
      this.openIssuesCount := openIssuesCount;
      analysisStatus := Pending;
      analysisError := None;
      lastAnalyzedAt := None;
      cronEnabled := false;
      cronFrequency := None;
      contributors := map[];
      commits := map[];
      groupOf := map[];
      commitGroups := [];
      pullRequests := map[];
      issues := map[];
    }

    /** `branch`: the selected branch when it is set and non-empty, otherwise the default branch. */
    function Branch(): (b: string)
      reads this`selectedBranch, this`defaultBranch
      ensures selectedBranch.Some? && selectedBranch.value != "" ==> b == selectedBranch.value
      ensures selectedBranch.None? || selectedBranch.value == "" ==> b == defaultBranch
    {
      if selectedBranch.Some? && selectedBranch.value != "" then selectedBranch.value else defaultBranch
    }

    /** `full_name`: owner and repository name joined by a slash. */
    function FullName(): string
      reads this
    {
      SlashJoin(owner, repoName)
    }

    /** `__str__` is the same string as `full_name`. */
    function ToString(): (r: string)
      reads this
      ensures r == FullName()
    {
      SlashJoin(owner, repoName)
    }

    /**
     * The status and error fields agree: a repository is failed exactly
     * when it records an analysis error.
     */
    predicate ErrorMatchesStatus()
      reads this
    {
      (analysisStatus == Failed) == analysisError.Some?
    }

    /** Every commit-group link points at an existing group and a stored commit. */
    predicate LinksValid()
      reads this
    {
      forall sha :: sha in groupOf ==> sha in commits && groupOf[sha] < |commitGroups|
    }
  }
}
