/**
 * The three background tasks of the repository app, on one `Repository`:
 * `fetch_repository_data` (status `fetching`, GitHub data stored, then
 * analysis queued), `analyze_repository_data` (status `analyzing`, commit
 * groups rebuilt, then summaries queued) and `generate_ai_summaries`
 * (contributor scores, then status `completed`).  A task run is a method
 * call; queueing the next task is the method's result, and `RunAnalysis`
 * runs the chain as the worker would.
 */
module Tasks {
  import opened Wrappers
  import opened Text
  import opened Calendar
  import opened Grouping
  import opened Models
  import opened Fetch
  import opened Analysis
  import opened ContributorScores

  /** A `GithubException`: its HTTP status and `str(e)`. */
  datatype GithubError = GithubError(status: int, message: string)

  /** How a task run ends. */
  datatype Outcome =
    | NextQueued   // the next task of the chain was queued with `.delay`
    | Finished     // the task returned without queueing anything
    | Retried      // `self.retry(exc=e)` was raised
    | Raised       // the exception was re-raised after being recorded

  const TokenMissing := "GitHub token not configured for user"

  /** The retry condition of `fetch_repository_data`: a 403 whose text mentions a rate limit in any letter case. */
  predicate RateLimited(e: GithubError) {
    e.status == 403 && Contains(AsciiLower(e.message), "rate limit")
  }

  /** The repository columns `fetch_repository_data` refreshes from GitHub. */
  datatype Metadata = Metadata(description: Option<string>, defaultBranch: string,
                               stars: int, forks: int, openIssues: int)

  function MetadataOf(repo: Repository): Metadata
    reads repo`description, repo`defaultBranch, repo`starsCount, repo`forksCount, repo`openIssuesCount
  {
    Metadata(repo.description, repo.defaultBranch, repo.starsCount, repo.forksCount, repo.openIssuesCount)
  }

  /** The values written: a missing description is stored as the empty string. */
  function RemoteMetadata(r: RemoteRepo): (m: Metadata)
    ensures m.description.Some?
    ensures r.description.Some? ==> m.description.value == r.description.value
    ensures r.description.None? ==> m.description.value == ""
  {
    Metadata(Some(if r.description.Some? then r.description.value else ""), r.defaultBranch, r.stars, r.forks, r.openIssues)
  }

  /**
   * `fetch_repository_data`.  `token` is what `get_github_token()` returns
   * and `remote` what `get_repo(full_name)` answers.  A missing token is a
   * plain exception: recorded and re-raised.  A GitHub error is recorded
   * and retried only when it is a rate limit.  Otherwise the metadata is
   * refreshed, the four helpers run on the branch the refreshed row
   * selects, and the analysis is queued.
   */
  method FetchRepositoryData(repo: Repository, token: Option<string>, remote: Result<RemoteRepo, GithubError>)
    returns (outcome: Outcome)
    modifies repo`analysisStatus, repo`analysisError, repo`description, repo`defaultBranch
    modifies repo`starsCount, repo`forksCount, repo`openIssuesCount
    modifies repo`contributors, repo`commits, repo`pullRequests, repo`issues
    ensures repo.ErrorMatchesStatus()
    ensures token.None? || token.value == "" ==>
              outcome == Raised && repo.analysisStatus == Failed && repo.analysisError == Some(TokenMissing)
    ensures (token.None? || token.value == "" || remote.Failure?) ==>
              MetadataOf(repo) == old(MetadataOf(repo)) && TablesOf(repo) == old(TablesOf(repo))
    ensures token.Some? && token.value != "" && remote.Failure? ==>
              repo.analysisStatus == Failed && repo.analysisError == Some("GitHub API error: " + remote.error.message)
              && outcome == (if RateLimited(remote.error) then Retried else Finished)
    ensures token.Some? && token.value != "" && remote.Success? ==>
              outcome == NextQueued && repo.analysisStatus == Fetching && repo.analysisError == None
              && MetadataOf(repo) == RemoteMetadata(remote.value)
              && TablesOf(repo) == AfterFetch(old(TablesOf(repo)), remote.value, repo.Branch())
  {
    repo.analysisStatus := Fetching;
    repo.analysisError := None;
    if token.None? || token.value == "" {
      repo.analysisStatus := Failed;
      repo.analysisError := Some(TokenMissing);
      return Raised;
    }
    if remote.Failure? {
      repo.analysisStatus := Failed;
      repo.analysisError := Some("GitHub API error: " + remote.error.message);
      if RateLimited(remote.error) {
        return Retried;
      }
      return Finished;
    }
    StoreRemote(repo, remote.value);
    outcome := NextQueued;
  }

  /** The success path of `fetch_repository_data`: the metadata is saved, then the four helpers run. */
  method StoreRemote(repo: Repository, r: RemoteRepo)
    modifies repo`description, repo`defaultBranch, repo`starsCount, repo`forksCount, repo`openIssuesCount
    modifies repo`contributors, repo`commits, repo`pullRequests, repo`issues
    ensures MetadataOf(repo) == RemoteMetadata(r)
    ensures TablesOf(repo) == AfterFetch(old(TablesOf(repo)), r, repo.Branch())
  {
    SaveMetadata(repo, r);
    FetchAll(repo, r, repo.Branch());
  }

  /** `repository.save()` after the metadata columns were set from GitHub. */
  method SaveMetadata(repo: Repository, r: RemoteRepo)
    modifies repo`description, repo`defaultBranch, repo`starsCount, repo`forksCount, repo`openIssuesCount
    ensures MetadataOf(repo) == RemoteMetadata(r)
  {
    repo.description := Some(if r.description.Some? then r.description.value else "");
    repo.defaultBranch, repo.starsCount, repo.forksCount, repo.openIssuesCount := r.defaultBranch, r.stars, r.forks, r.openIssues;
  }

  /**
   * How deleting the old commit groups treats their commits: `Cascade` is
   * the `on_delete=CASCADE` of `CommitData.commit_group` as written, which
   * deletes every linked commit with its group; `Unlink` the corrected
   * behaviour, which keeps the commits and clears their links.
   */
  datatype GroupDeletion = Cascade | Unlink

  /** The commits left after the old groups are deleted. */
  function Survivors(deletion: GroupDeletion, commits: map<string, CommitRow>, groupOf: map<string, nat>)
    : (kept: map<string, CommitRow>)
    ensures kept.Keys <= commits.Keys
    ensures forall sha :: sha in kept ==> kept[sha] == commits[sha]
    ensures deletion == Unlink ==> kept == commits
    ensures deletion == Cascade ==> forall sha :: sha in commits ==> (sha in kept <==> sha !in groupOf)
  {
    match deletion
    case Cascade => CascadeDeleteGroups(commits, groupOf)
    case Unlink => commits
  }

  /**
   * `analyze_repository_data`.  With no commit stored the repository is
   * marked completed at once.  Otherwise the weekly buckets (for
   * `"weekly"`) or monthly buckets (for anything else) over the commits'
   * date range are computed, the old groups are deleted under `deletion`,
   * the commits that survive are grouped into those buckets, and the
   * summaries are queued.
   */
  method AnalyzeRepositoryData(repo: Repository, groupType: string, deletion: GroupDeletion) returns (outcome: Outcome)
    modifies repo`analysisStatus, repo`commits, repo`groupOf, repo`commitGroups
    ensures repo.analysisError == old(repo.analysisError)
    ensures outcome == NextQueued || outcome == Finished
    ensures outcome == Finished <==> old(repo.commits) == map[]
    ensures outcome == Finished ==>
              repo.analysisStatus == Completed && repo.commits == old(repo.commits)
              && repo.groupOf == old(repo.groupOf) && repo.commitGroups == old(repo.commitGroups)
    ensures outcome == NextQueued ==>
              repo.analysisStatus == Analyzing
              && repo.commits == Survivors(deletion, old(repo.commits), old(repo.groupOf))
              && Rebuilt(repo.commits, repo.groupOf, repo.commitGroups, groupType)
    ensures outcome == NextQueued && groupType == "weekly" ==>
              forall j :: 0 <= j < |repo.commitGroups| ==> IsWeek(RowBucket(repo.commitGroups[j]))
    ensures outcome == NextQueued && groupType != "weekly" ==>
              forall j :: 0 <= j < |repo.commitGroups| ==> IsMonth(RowBucket(repo.commitGroups[j]))
    ensures outcome == NextQueued && deletion == Cascade && old(repo.commits).Keys <= old(repo.groupOf).Keys ==>
              repo.commits == map[] && repo.commitGroups == []
  {
    repo.analysisStatus := Analyzing;
    if repo.commits == map[] {
      repo.analysisStatus := Completed;
      return Finished;
    }
    GroupCommits(repo, groupType, deletion);
    if repo.commits == map[] {
      NoCommitsNoGroups(repo.groupOf, repo.commitGroups, groupType);
    }
    outcome := NextQueued;
  }

  /** A rebuild over no commit has no group, since every group counts at least one linked commit. */
  lemma NoCommitsNoGroups(groupOf: map<string, nat>, groups: seq<GroupRow>, groupType: string)
    requires Rebuilt(map[], groupOf, groups, groupType)
    ensures groups == []
  {
    assert groupOf == map[];
    assert LinkedTo(groupOf, 0) == {};
  }

  /**
   * The grouping step of `analyze_repository_data`, on a repository with
   * commits: the buckets come from every stored commit, the deletion runs,
   * and the survivors are regrouped.
   */
  method GroupCommits(repo: Repository, groupType: string, deletion: GroupDeletion)
    modifies repo`commits, repo`groupOf, repo`commitGroups
    requires repo.commits != map[]
    ensures repo.commits == Survivors(deletion, old(repo.commits), old(repo.groupOf))
    ensures Rebuilt(repo.commits, repo.groupOf, repo.commitGroups, groupType)
    ensures groupType == "weekly" ==> forall j :: 0 <= j < |repo.commitGroups| ==> IsWeek(RowBucket(repo.commitGroups[j]))
    ensures groupType != "weekly" ==> forall j :: 0 <= j < |repo.commitGroups| ==> IsMonth(RowBucket(repo.commitGroups[j]))
  {
    var startDate, endDate := DateRange(repo.commits);
    var some :| some in repo.commits;
    assert Ordinal(startDate) <= Day(repo.commits, some) <= Ordinal(endDate);
    var buckets := BucketsFor(groupType, startDate, endDate);
    var all := repo.commits;
    repo.commits := Survivors(deletion, repo.commits, repo.groupOf);
    forall sha | sha in repo.commits
      ensures buckets[0].lo <= Day(repo.commits, sha) <= buckets[|buckets| - 1].hi
    {
      assert Day(repo.commits, sha) == Day(all, sha);
    }
    Regroup(repo, buckets, groupType);
  }

  /** The periods of `_create_weekly_groups` for `"weekly"`, of `_create_monthly_groups` otherwise, as day intervals. */
  method BucketsFor(groupType: string, startDate: Date, endDate: Date) returns (bs: seq<Bucket>)
    requires Valid(startDate) && Valid(endDate) && Ordinal(startDate) <= Ordinal(endDate)
    ensures Contiguous(bs) && |bs| > 0
    ensures bs[0].lo <= Ordinal(startDate) && Ordinal(endDate) <= bs[|bs| - 1].hi
    ensures groupType == "weekly" ==> forall b :: b in bs ==> IsWeek(b)
    ensures groupType != "weekly" ==> forall b :: b in bs ==> IsMonth(b)
  {
    if groupType == "weekly" {
      bs := CreateWeeklyGroups(startDate, endDate);
      WeeksCoverRange(startDate, endDate, bs);
    } else {
      var months := CreateMonthlyGroups(startDate, endDate);
      MonthsCoverRange(startDate, endDate, months);
      bs := AsBuckets(months);
    }
  }

  /**
   * The old groups are deleted (their commits stay, unlinked) and one
   * group per non-empty bucket is created, in order, with its commits
   * linked to it.
   */
  method Regroup(repo: Repository, bs: seq<Bucket>, groupType: string)
    modifies repo`groupOf, repo`commitGroups
    requires Contiguous(bs) && |bs| > 0
    requires forall sha :: sha in repo.commits ==> bs[0].lo <= Day(repo.commits, sha) <= bs[|bs| - 1].hi
    ensures Grouped(repo.commitGroups, repo.groupOf) == Rebuild(bs, repo.commits, groupType)
    ensures Rebuilt(repo.commits, repo.groupOf, repo.commitGroups, groupType)
    ensures forall j :: 0 <= j < |repo.commitGroups| ==> RowBucket(repo.commitGroups[j]) in bs
  {
    repo.groupOf, repo.commitGroups := map[], [];
    var rows, links := LinkCommits(bs, repo.commits, groupType);
    repo.commitGroups, repo.groupOf := rows, links;
    RebuildCoversAll(bs, repo.commits, groupType);
    RebuildRows(bs, repo.commits, groupType);
    forall j | 0 <= j < |rows|
      ensures RowBucket(rows[j]) in bs
    {
      assert rows[j] in rows;
    }
  }

  /**
   * The group deletion as written: `CommitData.commit_group` is declared
   * with `on_delete=CASCADE`, so deleting the groups deletes every commit
   * linked to one.
   */
  function CascadeDeleteGroups(commits: map<string, CommitRow>, groupOf: map<string, nat>): (kept: map<string, CommitRow>)
    ensures forall sha :: sha in kept <==> sha in commits && sha !in groupOf
    ensures forall sha :: sha in kept ==> kept[sha] == commits[sha]
  {
    map sha | sha in commits && sha !in groupOf :: commits[sha]
  }

  /**
   * After a completed analysis every commit is linked, so the deletion the
   * next analysis performs (after a re-analysis request and a new fetch,
   * which updates the same rows and keeps their links) deletes every
   * commit the repository had.
   */
  lemma CascadeLosesAnalysedCommits(commits: map<string, CommitRow>, groupOf: map<string, nat>,
                                    groups: seq<GroupRow>, groupType: string)
    requires Rebuilt(commits, groupOf, groups, groupType)
    ensures CascadeDeleteGroups(commits, groupOf) == map[]
  {
    assert CascadeDeleteGroups(commits, groupOf).Keys == {};
  }

  /**
   * Where `generate_ai_summaries` raises, if it does: while the group
   * summaries are generated, before any score is saved, or in
   * `_generate_overall_summary`, after the scores are saved.
   */
  datatype SummaryFailure = NoFailure | InGroupSummaries(message: string) | InOverallSummary(message: string)

  /**
   * Whether the task raises: the overall summary is asked for only when
   * the AI client exists and the repository has commit groups.
   */
  predicate SummaryRaises(failure: SummaryFailure, aiAvailable: bool, groups: seq<GroupRow>) {
    failure.InGroupSummaries? || (failure.InOverallSummary? && aiAvailable && groups != [])
  }

  /**
   * `generate_ai_summaries`.  `aiAvailable` is whether `AIClient()` could
   * be created; `failure` says where an exception is raised (the AI calls
   * themselves are not modelled).  Contributors are rescored unless the
   * group summaries fail first; a raise marks the repository failed, and
   * otherwise it is completed at `now`.
   */
  method GenerateAiSummaries(repo: Repository, aiAvailable: bool, failure: SummaryFailure, now: int)
    returns (outcome: Outcome)
    modifies repo`analysisStatus, repo`analysisError, repo`lastAnalyzedAt, repo`contributors
    ensures failure.InGroupSummaries? ==> repo.contributors == old(repo.contributors)
    ensures !failure.InGroupSummaries? ==>
              Rescored(repo.contributors, old(repo.contributors), repo.commits, repo.pullRequests, repo.issues, aiAvailable)
    ensures SummaryRaises(failure, aiAvailable, repo.commitGroups) ==>
              outcome == Raised && repo.analysisStatus == Failed
              && repo.analysisError == Some("AI summary error: " + failure.message)
              && repo.lastAnalyzedAt == old(repo.lastAnalyzedAt)
    ensures !SummaryRaises(failure, aiAvailable, repo.commitGroups) ==>
              outcome == Finished && repo.analysisStatus == Completed && repo.lastAnalyzedAt == Some(now)
              && repo.analysisError == old(repo.analysisError)
  {
    if failure.InGroupSummaries? {
      repo.analysisStatus := Failed;
      repo.analysisError := Some("AI summary error: " + failure.message);
      return Raised;
    }
    CalculateContributorScores(repo, aiAvailable);
    if failure.InOverallSummary? && aiAvailable && repo.commitGroups != [] {
      repo.analysisStatus := Failed;
      repo.analysisError := Some("AI summary error: " + failure.message);
      return Raised;
    }
    repo.analysisStatus, repo.lastAnalyzedAt := Completed, Some(now);
    outcome := Finished;
  }

  /** A status no task moves the repository out of by itself. */
  predicate Settled(s: AnalysisStatus) {
    s == Completed || s == Failed
  }

  /**
   * The chain a newly created or re-analysed repository goes through: the
   * fetch, then (when it queues it) the analysis with its default
   * `"weekly"` grouping, then (when it queues them) the summaries.  A run
   * that is not retried ends completed or failed, with an error exactly
   * when it failed; a completed run holds a complete, consistent rebuild
   * of the commit groups unless there was no commit to group.
   */
  method RunAnalysis(repo: Repository, token: Option<string>, remote: Result<RemoteRepo, GithubError>,
                     aiAvailable: bool, failure: SummaryFailure, now: int, deletion: GroupDeletion)
    returns (outcome: Outcome)
    modifies repo
    ensures repo.ErrorMatchesStatus()
    ensures outcome != Retried ==> Settled(repo.analysisStatus)
    ensures outcome == Retried ==> repo.analysisStatus == Failed
    ensures repo.analysisStatus == Completed && repo.commits != map[] ==>
              Rebuilt(repo.commits, repo.groupOf, repo.commitGroups, "weekly") && repo.lastAnalyzedAt == Some(now)
  {
    outcome := FetchRepositoryData(repo, token, remote);
    if outcome != NextQueued {
      return;
    }
    outcome := AnalyzeRepositoryData(repo, "weekly", deletion);
    if outcome != NextQueued {
      return;
    }
    outcome := GenerateAiSummaries(repo, aiAvailable, failure, now);
  }
}
