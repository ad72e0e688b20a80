/**
 * The `_fetch_*` helpers of the repository tasks: read GitHub's listings
 * into lists of records, with their limits, truncations and state
 * classification, then write them with `update_or_create`.
 *
 * A GitHub listing is a `Listing`: the items iteration yields, after which
 * the next page request raises a `GithubException` when `fails` is set
 * (a listing that fails at once has no items).
 */
module Fetch {
  import opened Wrappers
  import opened Text
  import opened Calendar
  import opened Upsert
  import opened Models

  datatype Listing<T> = Listing(items: seq<T>, fails: bool)

  const CommitLimit: nat := 500
  const PullRequestLimit: nat := 100
  const IssueLimit: nat := 100
  const FileLimit: nat := 20
  const CommentLimit: nat := 20
  const CommentBodyLimit: nat := 1000
  const CommitShaLimit: nat := 50

  /**
   * `for i, x in enumerate(listing): if i >= limit: break`.  Item `limit`
   * is requested before the loop can break, so the loop raises exactly when
   * the listing fails and holds no more than `limit` items.
   */
  function Enumerated<T>(l: Listing<T>, limit: nat): (r: Option<seq<T>>)
    ensures r.None? <==> l.fails && |l.items| <= limit
    ensures r.Some? ==> r.value <= l.items
    ensures r.Some? ==> |r.value| == if |l.items| < limit then |l.items| else limit
  {
    if l.fails && |l.items| <= limit then None else Some(Take(l.items, limit))
  }

  /**
   * Iterating `listing[:n]`: only the first `n` items are requested, so
   * the slice raises exactly when the listing fails with fewer than `n`
   * items.
   */
  function Sliced<T>(l: Listing<T>, n: nat): (r: Option<seq<T>>)
    ensures r.None? <==> l.fails && |l.items| < n
    ensures r.Some? ==> r.value <= l.items
    ensures r.Some? ==> |r.value| == if |l.items| < n then |l.items| else n
  {
    if l.fails && |l.items| < n then None else Some(Take(l.items, n))
  }

  // ---- GitHub's objects, as the helpers read them ----

  datatype GhUser = GhUser(login: string, avatarUrl: Option<string>)
  datatype GhContributor = GhContributor(login: string, id: Option<int>, avatarUrl: Option<string>, email: Option<string>, contributions: int)
  datatype GhStats = GhStats(additions: nat, deletions: nat)
  datatype GhCommit = GhCommit(
    sha: string, message: string, date: ValidDate, authorName: string, authorEmail: Option<string>,
    stats: Option<GhStats>, author: Option<GhUser>, files: Listing<FileChange>)
  datatype GhComment = GhComment(user: Option<GhUser>, body: string, createdAt: string)
  datatype GhPull = GhPull(
    number: int, title: string, body: Option<string>, user: Option<GhUser>, merged: bool, state: string,
    comments: Listing<GhComment>, commits: Listing<string>, labels: seq<string>,
    additions: int, deletions: int, changedFiles: int)
  datatype GhIssue = GhIssue(
    number: int, title: string, body: Option<string>, user: Option<GhUser>, state: string,
    isPullRequest: bool, comments: Listing<GhComment>, labels: seq<string>)

  /** What `get_repo` returns: metadata and the listings; commits are listed per branch. */
  datatype RemoteRepo = RemoteRepo(
    description: Option<string>, defaultBranch: string, stars: int, forks: int, openIssues: int,
    contributors: Listing<GhContributor>, commitsByBranch: map<string, Listing<GhCommit>>,
    pulls: Listing<GhPull>, issues: Listing<GhIssue>)

  /** `get_commits(sha=branch)`: a branch GitHub does not know answers with an error. */
  function CommitsOn(remote: RemoteRepo, branch: string): Listing<GhCommit> {
    if branch in remote.commitsByBranch then remote.commitsByBranch[branch] else Listing([], true)
  }

  // ---- contributors ----

  function ContributorEntry(c: GhContributor): (string, ContributorDefaults) {
    (c.login, ContributorDefaults(c.id, c.avatarUrl, c.email, c.contributions))
  }

  function ContributorBatch(cs: seq<GhContributor>): (b: seq<(string, ContributorDefaults)>)
    ensures |b| == |cs|
    ensures forall i :: 0 <= i < |cs| ==> b[i] == ContributorEntry(cs[i])
  {
    seq(|cs|, i requires 0 <= i < |cs| => ContributorEntry(cs[i]))
  }

  /** The reading loop of `_fetch_contributors`: every contributor, or nothing when the listing raised. */
  method CollectContributors(l: Listing<GhContributor>) returns (r: Option<seq<(string, ContributorDefaults)>>)
    ensures r.None? <==> l.fails
    ensures r.Some? ==> r.value == ContributorBatch(l.items)
  {
    var acc: seq<(string, ContributorDefaults)> := [];
    var i := 0;
    while i < |l.items|
      invariant 0 <= i <= |l.items|
      invariant acc == ContributorBatch(l.items[..i])
    {
      acc := acc + [ContributorEntry(l.items[i])];
      i := i + 1;
    }
    if l.fails {
      return None;
    }
    assert l.items[..i] == l.items;
    return Some(acc);
  }

  // ---- commits ----

  /** The `commit_data` dictionary `_fetch_commits` builds for one commit. */
  datatype CommitData = CommitData(
    sha: string, message: string, date: ValidDate, authorName: string, authorEmail: Option<string>,
    additions: nat, deletions: nat, authorLogin: Option<string>, filesChanged: seq<FileChange>)

  /**
   * `files_changed`: the first 20 files, or no file at all when reading
   * them raised (the partial list is discarded).
   */
  function FilesChanged(files: Listing<FileChange>): (r: seq<FileChange>)
    ensures |r| <= FileLimit && r <= files.items
    ensures files.fails && |files.items| < FileLimit ==> r == []
    ensures files.fails && |files.items| >= FileLimit ==> r == files.items[..FileLimit]
    ensures !files.fails ==> |r| == if |files.items| < FileLimit then |files.items| else FileLimit
  {
    match Sliced(files, FileLimit)
    case None => []
    case Some(fs) => fs
  }

  function CommitDataOf(c: GhCommit): (d: CommitData)
    ensures d.sha == c.sha
    ensures d.additions == (if c.stats.Some? then c.stats.value.additions else 0)
    ensures d.deletions == (if c.stats.Some? then c.stats.value.deletions else 0)
    ensures d.authorLogin.Some? <==> c.author.Some?
    ensures |d.filesChanged| <= FileLimit
  {
    CommitData(
      c.sha, c.message, c.date, c.authorName, c.authorEmail,
      if c.stats.Some? then c.stats.value.additions else 0,
      if c.stats.Some? then c.stats.value.deletions else 0,
      if c.author.Some? then Some(c.author.value.login) else None,
      FilesChanged(c.files))
  }

  function CommitDataList(cs: seq<GhCommit>): (ds: seq<CommitData>)
    ensures |ds| == |cs|
    ensures forall i :: 0 <= i < |cs| ==> ds[i] == CommitDataOf(cs[i])
  {
    seq(|cs|, i requires 0 <= i < |cs| => CommitDataOf(cs[i]))
  }

  /** The reading loop of `_fetch_commits`: at most 500 commits, or nothing when the listing raised. */
  method CollectCommits(l: Listing<GhCommit>) returns (r: Option<seq<CommitData>>)
    ensures r.None? <==> Enumerated(l, CommitLimit).None?
    ensures r.Some? ==> r.value == CommitDataList(Enumerated(l, CommitLimit).value)
    ensures r.Some? ==> |r.value| <= CommitLimit
  {
    var acc: seq<CommitData> := [];
    var i := 0;
    while true
      invariant 0 <= i <= |l.items| && i <= CommitLimit
      invariant acc == CommitDataList(l.items[..i])
      decreases |l.items| - i
    {
      if i == |l.items| {
        if l.fails {
          return None;
        }
        break;
      }
      if i >= CommitLimit {
        break;
      }
      acc := acc + [CommitDataOf(l.items[i])];
      i := i + 1;
    }
    assert l.items[..i] == Take(l.items, CommitLimit);
    return Some(acc);
  }

  /**
   * The contributor a commit is linked to: the repository's contributor
   * whose username is the commit author's login, when the login is
   * non-empty and such a contributor exists.
   */
  function ContributorLink(login: Option<string>, contributors: map<string, ContributorRow>): (r: Option<string>)
    ensures r.Some? <==> login.Some? && login.value != "" && login.value in contributors
    ensures r.Some? ==> r.value == login.value
  {
    if login.Some? && login.value != "" && login.value in contributors then login else None
  }

  function CommitEntry(d: CommitData, contributors: map<string, ContributorRow>): (string, CommitRow) {
    (d.sha, CommitRow(d.message, d.date, d.authorName, d.authorEmail, d.additions, d.deletions,
                      d.filesChanged, ContributorLink(d.authorLogin, contributors)))
  }

  function CommitBatch(ds: seq<CommitData>, contributors: map<string, ContributorRow>): (b: seq<(string, CommitRow)>)
    ensures |b| == |ds|
    ensures forall i :: 0 <= i < |ds| ==> b[i] == CommitEntry(ds[i], contributors)
  {
    seq(|ds|, i requires 0 <= i < |ds| => CommitEntry(ds[i], contributors))
  }

  // ---- pull requests ----

  /** A pull request is merged if GitHub says merged, else closed if its state is "closed", else open. */
  function PullRequestState(merged: bool, state: string): (s: PrState)
    ensures s == PrMerged <==> merged
    ensures s == PrClosed <==> !merged && state == "closed"
    ensures s == PrOpen <==> !merged && state != "closed"
  {
    if merged then PrMerged else if state == "closed" then PrClosed else PrOpen
  }

  function CommentOf(c: GhComment): (e: Comment)
    ensures |e.body| <= CommentBodyLimit && e.body <= c.body
    ensures e.author == if c.user.Some? then c.user.value.login else "unknown"
  {
    Comment(if c.user.Some? then c.user.value.login else "unknown", Take(c.body, CommentBodyLimit), c.createdAt)
  }

  /**
   * The `discussion` list: the first 20 comments, each body cut to 1000
   * characters.  A failure while reading them keeps what was read.
   */
  function Discussion(l: Listing<GhComment>): (r: seq<Comment>)
    ensures |r| <= CommentLimit
    ensures |r| == if |l.items| < CommentLimit then |l.items| else CommentLimit
    ensures forall i :: 0 <= i < |r| ==> r[i] == CommentOf(l.items[i])
  {
    var cs := Take(l.items, CommentLimit);
    seq(|cs|, i requires 0 <= i < |cs| => CommentOf(cs[i]))
  }

  function AuthorLogin(u: Option<GhUser>): string {
    if u.Some? then u.value.login else "unknown"
  }

  function AuthorAvatar(u: Option<GhUser>): Option<string> {
    if u.Some? then u.value.avatarUrl else None
  }

  /** `body or ""`. */
  function BodyOrEmpty(body: Option<string>): string {
    if body.Some? then body.value else ""
  }

  function PullRequestEntry(p: GhPull): (e: (int, PullRequestRow))
    ensures e.0 == p.number
    ensures e.1.state == PullRequestState(p.merged, p.state)
    ensures |e.1.commitShas| <= CommitShaLimit && e.1.commitShas <= p.commits.items
    ensures |e.1.discussion| <= CommentLimit
  {
    (p.number, PullRequestRow(
      p.title, BodyOrEmpty(p.body), AuthorLogin(p.user), AuthorAvatar(p.user),
      PullRequestState(p.merged, p.state), p.additions, p.deletions, p.changedFiles,
      Take(p.commits.items, CommitShaLimit), p.labels, Discussion(p.comments)))
  }

  function PullRequestBatch(ps: seq<GhPull>): (b: seq<(int, PullRequestRow)>)
    ensures |b| == |ps|
    ensures forall i :: 0 <= i < |ps| ==> b[i] == PullRequestEntry(ps[i])
  {
    seq(|ps|, i requires 0 <= i < |ps| => PullRequestEntry(ps[i]))
  }

  /** The reading loop of `_fetch_pull_requests`: at most 100 pull requests, or nothing when the listing raised. */
  method CollectPullRequests(l: Listing<GhPull>) returns (r: Option<seq<(int, PullRequestRow)>>)
    ensures r.None? <==> Enumerated(l, PullRequestLimit).None?
    ensures r.Some? ==> r.value == PullRequestBatch(Enumerated(l, PullRequestLimit).value)
    ensures r.Some? ==> |r.value| <= PullRequestLimit
  {
    var acc: seq<(int, PullRequestRow)> := [];
    var i := 0;
    while true
      invariant 0 <= i <= |l.items| && i <= PullRequestLimit
      invariant acc == PullRequestBatch(l.items[..i])
      decreases |l.items| - i
    {
      if i == |l.items| {
        if l.fails {
          return None;
        }
        break;
      }
      if i >= PullRequestLimit {
        break;
      }
      acc := acc + [PullRequestEntry(l.items[i])];
      i := i + 1;
    }
    assert l.items[..i] == Take(l.items, PullRequestLimit);
    return Some(acc);
  }

  // ---- issues ----

  /** An issue is closed exactly when GitHub's state is "closed". */
  function IssueStateOf(state: string): (s: IssueState)
    ensures s == IssueClosed <==> state == "closed"
  {
    if state == "closed" then IssueClosed else IssueOpen
  }

  function IssueEntry(x: GhIssue): (e: (int, IssueRow))
    ensures e.0 == x.number && e.1.state == IssueStateOf(x.state)
    ensures |e.1.discussion| <= CommentLimit
  {
    (x.number, IssueRow(
      x.title, BodyOrEmpty(x.body), AuthorLogin(x.user), AuthorAvatar(x.user),
      IssueStateOf(x.state), x.labels, Discussion(x.comments)))
  }

  /** The issue records built from listing items: pull requests are skipped. */
  function IssueBatch(xs: seq<GhIssue>): seq<(int, IssueRow)>
    decreases |xs|
  {
    if |xs| == 0 then []
    else
      var last := xs[|xs| - 1];
      IssueBatch(xs[..|xs| - 1]) + (if last.isPullRequest then [] else [IssueEntry(last)])
  }

  /** How many listing items are pull requests. */
  function PullRequestItems(xs: seq<GhIssue>): nat
    decreases |xs|
  {
    if |xs| == 0 then 0
    else PullRequestItems(xs[..|xs| - 1]) + (if xs[|xs| - 1].isPullRequest then 1 else 0)
  }

  /** The reading loop of `_fetch_issues`: 100 listing slots, pull requests skipped, or nothing when the listing raised. */
  method CollectIssues(l: Listing<GhIssue>) returns (r: Option<seq<(int, IssueRow)>>)
    ensures r.None? <==> Enumerated(l, IssueLimit).None?
    ensures r.Some? ==> r.value == IssueBatch(Enumerated(l, IssueLimit).value)
  {
    var acc: seq<(int, IssueRow)> := [];
    var i := 0;
    while true
      invariant 0 <= i <= |l.items| && i <= IssueLimit
      invariant acc == IssueBatch(l.items[..i])
      decreases |l.items| - i
    {
      if i == |l.items| {
        if l.fails {
          return None;
        }
        break;
      }
      if i >= IssueLimit {
        break;
      }
      var item := l.items[i];
      assert l.items[..i + 1][..i] == l.items[..i];
      i := i + 1;
      if item.isPullRequest {
        continue;
      }
      acc := acc + [IssueEntry(item)];
    }
    assert l.items[..i] == Take(l.items, IssueLimit);
    return Some(acc);
  }

  /**
   * Every item read takes one of the slots, whether it becomes an issue
   * record or is a skipped pull request.
   */
  lemma {:induction false} IssueSlots(xs: seq<GhIssue>)
    ensures |IssueBatch(xs)| + PullRequestItems(xs) == |xs|
    ensures forall e :: e in IssueBatch(xs) ==> exists x :: x in xs && !x.isPullRequest && e == IssueEntry(x)
    decreases |xs|
  {
    if |xs| > 0 {
      var init := xs[..|xs| - 1];
      IssueSlots(init);
      forall e | e in IssueBatch(xs)
        ensures exists x :: x in xs && !x.isPullRequest && e == IssueEntry(x)
      {
        if e in IssueBatch(init) {
          var x :| x in init && !x.isPullRequest && e == IssueEntry(x);
          assert x in xs;
        } else {
          assert e == IssueEntry(xs[|xs| - 1]);
        }
      }
    }
  }

  /** At most 100 issue records are written, fewer by the number of pull requests among the first 100 items. */
  lemma IssueBound(l: Listing<GhIssue>)
    requires Enumerated(l, IssueLimit).Some?
    ensures |IssueBatch(Enumerated(l, IssueLimit).value)| == |Enumerated(l, IssueLimit).value| - PullRequestItems(Enumerated(l, IssueLimit).value)
    ensures |IssueBatch(Enumerated(l, IssueLimit).value)| <= IssueLimit
  {
    IssueSlots(Enumerated(l, IssueLimit).value);
  }

  // ---- writing ----

  /** `_fetch_contributors`: on a listing error nothing is written. */
  method FetchContributors(repo: Repository, l: Listing<GhContributor>)
    modifies repo`contributors
    ensures repo.contributors == if l.fails then old(repo.contributors)
                                 else ApplyBatch(old(repo.contributors), ContributorBatch(l.items), WriteContributor)
  {
    var data := CollectContributors(l);
    if data.None? {
      return;
    }
    repo.contributors := UpsertAll(repo.contributors, data.value, WriteContributor);
  }

  /** `_fetch_commits`: each commit is linked to its author's contributor row, if any. */
  method FetchCommits(repo: Repository, l: Listing<GhCommit>)
    modifies repo`commits
    ensures repo.commits == match Enumerated(l, CommitLimit)
                            case None => old(repo.commits)
                            case Some(cs) => ApplyBatch(old(repo.commits), CommitBatch(CommitDataList(cs), repo.contributors), Replace)
  {
    var data := CollectCommits(l);
    if data.None? {
      return;
    }
    var batch := CommitBatch(data.value, repo.contributors);
    repo.commits := UpsertAll(repo.commits, batch, Replace);
  }

  /** `_fetch_pull_requests`. */
  method FetchPullRequests(repo: Repository, l: Listing<GhPull>)
    modifies repo`pullRequests
    ensures repo.pullRequests == match Enumerated(l, PullRequestLimit)
                                 case None => old(repo.pullRequests)
                                 case Some(ps) => ApplyBatch(old(repo.pullRequests), PullRequestBatch(ps), Replace)
  {
    var data := CollectPullRequests(l);
    if data.None? {
      return;
    }
    repo.pullRequests := UpsertAll(repo.pullRequests, data.value, Replace);
  }

  /** `_fetch_issues`. */
  method FetchIssues(repo: Repository, l: Listing<GhIssue>)
    modifies repo`issues
    ensures repo.issues == match Enumerated(l, IssueLimit)
                           case None => old(repo.issues)
                           case Some(xs) => ApplyBatch(old(repo.issues), IssueBatch(xs), Replace)
  {
    var data := CollectIssues(l);
    if data.None? {
      return;
    }
    repo.issues := UpsertAll(repo.issues, data.value, Replace);
  }

  // ---- the four tables together ----

  datatype Tables = Tables(
    contributors: map<string, ContributorRow>, commits: map<string, CommitRow>,
    pullRequests: map<int, PullRequestRow>, issues: map<int, IssueRow>)

  /** The tables after the four helpers ran, in order, on one repository's GitHub data. */
  function AfterFetch(t: Tables, remote: RemoteRepo, branch: string): Tables {
    var contributors :=
      if remote.contributors.fails then t.contributors
      else ApplyBatch(t.contributors, ContributorBatch(remote.contributors.items), WriteContributor);
    var commits :=
      match Enumerated(CommitsOn(remote, branch), CommitLimit)
      case None => t.commits
      case Some(cs) => ApplyBatch(t.commits, CommitBatch(CommitDataList(cs), contributors), Replace);
    var pullRequests :=
      match Enumerated(remote.pulls, PullRequestLimit)
      case None => t.pullRequests
      case Some(ps) => ApplyBatch(t.pullRequests, PullRequestBatch(ps), Replace);
    var issues :=
      match Enumerated(remote.issues, IssueLimit)
      case None => t.issues
      case Some(xs) => ApplyBatch(t.issues, IssueBatch(xs), Replace);
    Tables(contributors, commits, pullRequests, issues)
  }

  /** The four tables a repository row owns. */
  function TablesOf(repo: Repository): Tables
    reads repo`contributors, repo`commits, repo`pullRequests, repo`issues
  {
    Tables(repo.contributors, repo.commits, repo.pullRequests, repo.issues)
  }

  /** The four helpers, in the order `fetch_repository_data` calls them, on the given branch. */
  method FetchAll(repo: Repository, remote: RemoteRepo, branch: string)
    modifies repo`contributors, repo`commits, repo`pullRequests, repo`issues
    ensures TablesOf(repo) == AfterFetch(old(TablesOf(repo)), remote, branch)
  {
    FetchContributors(repo, remote.contributors);
    FetchCommits(repo, CommitsOn(remote, branch));
    FetchPullRequests(repo, remote.pulls);
    FetchIssues(repo, remote.issues);
  }

  /** Fetching the same GitHub data twice leaves the same rows as fetching it once. */
  lemma FetchIdempotent(t: Tables, remote: RemoteRepo, branch: string)
    ensures AfterFetch(AfterFetch(t, remote, branch), remote, branch) == AfterFetch(t, remote, branch)
  {
    var once := AfterFetch(t, remote, branch);
    WriteContributorOverwrites();
    ReplaceOverwrites<CommitRow>();
    ReplaceOverwrites<PullRequestRow>();
    ReplaceOverwrites<IssueRow>();
    if !remote.contributors.fails {
      ApplyBatchIdempotent(t.contributors, ContributorBatch(remote.contributors.items), WriteContributor);
    }
    match Enumerated(CommitsOn(remote, branch), CommitLimit) {
      case None =>
      case Some(cs) =>
        ApplyBatchIdempotent(t.commits, CommitBatch(CommitDataList(cs), once.contributors), Replace);
    }
    match Enumerated(remote.pulls, PullRequestLimit) {
      case None =>
      case Some(ps) => ApplyBatchIdempotent(t.pullRequests, PullRequestBatch(ps), Replace);
    }
    match Enumerated(remote.issues, IssueLimit) {
      case None =>
      case Some(xs) => ApplyBatchIdempotent(t.issues, IssueBatch(xs), Replace);
    }
  }
}
