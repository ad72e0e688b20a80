/**
 * `_calculate_contributor_scores`: for each contributor row, the commit,
 * pull request and issue counts are recomputed from the stored tables and
 * the impact score is set, from the AI client's formula when a client
 * could be created and from the fallback formula otherwise.
 */
module ContributorScores {
  import opened Wrappers
  import opened Models
  import opened Scoring

  /** A sum over a finite set, as a database `Sum` aggregate sees it: order does not matter. */
  ghost function Sum<T>(s: set<T>, f: T -> nat): nat
    decreases s
  {
    if s == {} then 0 else var x :| x in s; f(x) + Sum(s - {x}, f)
  }

  /** Any element can be taken out of a sum first. */
  lemma {:induction false} SumRemove<T>(s: set<T>, f: T -> nat, x: T)
    requires x in s
    ensures Sum(s, f) == f(x) + Sum(s - {x}, f)
    decreases s
  {
    var y :| y in s && Sum(s, f) == f(y) + Sum(s - {y}, f);
    if y != x {
      SumRemove(s - {y}, f, x);
      SumRemove(s - {x}, f, y);
      assert s - {y} - {x} == s - {x} - {y};
    }
  }

  /** `CommitData.objects.filter(contributor=contributor)`. */
  function Authored(commits: map<string, CommitRow>, login: string): (s: set<string>)
  {
    set sha | sha in commits && commits[sha].contributor == Some(login)
  }

  function AdditionsOf(commits: map<string, CommitRow>): string -> nat {
    sha => if sha in commits then commits[sha].additions else 0
  }

  function DeletionsOf(commits: map<string, CommitRow>): string -> nat {
    sha => if sha in commits then commits[sha].deletions else 0
  }

  /**
   * The `aggregate(Count("id"), Sum("additions"), Sum("deletions"))` over a
   * contributor's commits; `or 0` turns the empty sums into 0.
   */
  method AggregateCommits(commits: map<string, CommitRow>, login: string)
    returns (count: nat, additions: nat, deletions: nat)
    ensures count == |Authored(commits, login)|
    ensures additions == Sum(Authored(commits, login), AdditionsOf(commits))
    ensures deletions == Sum(Authored(commits, login), DeletionsOf(commits))
  {
    var authored := set sha | sha in commits && commits[sha].contributor == Some(login);
    count := |authored|;
    additions, deletions := 0, 0;
    var rest := authored;
    while rest != {}
      invariant rest <= authored
      invariant additions + Sum(rest, AdditionsOf(commits)) == Sum(authored, AdditionsOf(commits))
      invariant deletions + Sum(rest, DeletionsOf(commits)) == Sum(authored, DeletionsOf(commits))
      decreases rest
    {
      var sha :| sha in rest;
      SumRemove(rest, AdditionsOf(commits), sha);
      SumRemove(rest, DeletionsOf(commits), sha);
      additions := additions + commits[sha].additions;
      deletions := deletions + commits[sha].deletions;
      rest := rest - {sha};
    }
  }

  /** `PullRequest.objects.filter(repository=repository, author=login)`. */
  function OpenedPullRequests(prs: map<int, PullRequestRow>, login: string): set<int> {
    set n | n in prs && prs[n].author == login
  }

  /** The same filter with `state="merged"`. */
  function MergedPullRequests(prs: map<int, PullRequestRow>, login: string): set<int> {
    set n | n in prs && prs[n].author == login && prs[n].state == PrMerged
  }

  /** `Issue.objects.filter(repository=repository, author=login)`. */
  function OpenedIssues(issues: map<int, IssueRow>, login: string): set<int> {
    set n | n in issues && issues[n].author == login
  }

  /** The same filter with `state="closed"`. */
  function ClosedIssues(issues: map<int, IssueRow>, login: string): set<int> {
    set n | n in issues && issues[n].author == login && issues[n].state == IssueClosed
  }

  /** The statistics `_calculate_contributor_scores` gathers for one contributor. */
  datatype Activity = Activity(commits: nat, additions: nat, deletions: nat,
                               prsOpened: nat, prsMerged: nat, issuesOpened: nat, issuesClosed: nat)

  /** The statistics of `login`, read from the stored tables. */
  ghost function ActivityOf(login: string, commits: map<string, CommitRow>,
                            prs: map<int, PullRequestRow>, issues: map<int, IssueRow>): Activity
  {
    Activity(|Authored(commits, login)|,
             Sum(Authored(commits, login), AdditionsOf(commits)), Sum(Authored(commits, login), DeletionsOf(commits)),
             |OpenedPullRequests(prs, login)|, |MergedPullRequests(prs, login)|,
             |OpenedIssues(issues, login)|, |ClosedIssues(issues, login)|)
  }

  /** The row saved for given statistics: the AI client's score when a client exists, the fallback otherwise. */
  function ScoredRow(row: ContributorRow, a: Activity, aiAvailable: bool): ContributorRow {
    row.(totalCommits := a.commits, totalAdditions := a.additions, totalDeletions := a.deletions,
         prsOpened := a.prsOpened, prsMerged := a.prsMerged, issuesOpened := a.issuesOpened, issuesClosed := a.issuesClosed,
         impactScore := if aiAvailable then ImpactScore(a.commits, a.additions, a.deletions, a.prsMerged, a.prsOpened,
                                                        a.issuesClosed, a.issuesOpened)
                        else FallbackScore(a.commits, a.prsMerged, a.prsOpened))
  }

  /** The contributor row `_calculate_contributor_scores` saves for `login`. */
  ghost function Scored(row: ContributorRow, login: string, commits: map<string, CommitRow>,
                        prs: map<int, PullRequestRow>, issues: map<int, IssueRow>, aiAvailable: bool): ContributorRow
  {
    ScoredRow(row, ActivityOf(login, commits, prs, issues), aiAvailable)
  }

  /** The loop body of `_calculate_contributor_scores` for one contributor row. */
  method ScoreContributor(row: ContributorRow, login: string, commits: map<string, CommitRow>,
                          prs: map<int, PullRequestRow>, issues: map<int, IssueRow>, aiAvailable: bool)
    returns (r: ContributorRow)
    ensures r == Scored(row, login, commits, prs, issues, aiAvailable)
  {
    var totalCommits, totalAdditions, totalDeletions := AggregateCommits(commits, login);
    var prsOpened := |OpenedPullRequests(prs, login)|;
    var prsMerged := |MergedPullRequests(prs, login)|;
    var issuesOpened := |OpenedIssues(issues, login)|;
    var issuesClosed := |ClosedIssues(issues, login)|;
    var score;
    if aiAvailable {
      score := CalculateImpactScore(totalCommits, totalAdditions, totalDeletions, prsMerged, prsOpened,
                                    issuesClosed, issuesOpened);
    } else {
      score := totalCommits * 10 + prsMerged * 50 + prsOpened * 20;
    }
    r := row.(totalCommits := totalCommits, totalAdditions := totalAdditions, totalDeletions := totalDeletions,
              prsOpened := prsOpened, prsMerged := prsMerged, issuesOpened := issuesOpened, issuesClosed := issuesClosed,
              impactScore := score);
  }

  /** `rows` is the contributor table `before` with every row rescored; no row is added or removed. */
  ghost predicate Rescored(rows: map<string, ContributorRow>, before: map<string, ContributorRow>,
                           commits: map<string, CommitRow>, prs: map<int, PullRequestRow>,
                           issues: map<int, IssueRow>, aiAvailable: bool)
  {
    rows.Keys == before.Keys
    && forall login {:trigger Scored(before[login], login, commits, prs, issues, aiAvailable)} :: login in before ==>
         rows[login] == Scored(before[login], login, commits, prs, issues, aiAvailable)
  }

  /** The rescored contributor table. */
  ghost function RescoredTable(before: map<string, ContributorRow>, commits: map<string, CommitRow>,
                               prs: map<int, PullRequestRow>, issues: map<int, IssueRow>, aiAvailable: bool)
    : (rows: map<string, ContributorRow>)
    ensures Rescored(rows, before, commits, prs, issues, aiAvailable)
  {
    map login | login in before :: Scored(before[login], login, commits, prs, issues, aiAvailable)
  }

  /** Every contributor table has its rescored table. */
  lemma RescoredExists(before: map<string, ContributorRow>, commits: map<string, CommitRow>,
                       prs: map<int, PullRequestRow>, issues: map<int, IssueRow>, aiAvailable: bool)
    ensures exists rows :: Rescored(rows, before, commits, prs, issues, aiAvailable)
  {
    var rows := RescoredTable(before, commits, prs, issues, aiAvailable);
  }

  /** The `for contributor in contributors` loop, on the contributor table. */
  method RescoreAll(before: map<string, ContributorRow>, commits: map<string, CommitRow>,
                    prs: map<int, PullRequestRow>, issues: map<int, IssueRow>, aiAvailable: bool)
    returns (rows: map<string, ContributorRow>)
    ensures Rescored(rows, before, commits, prs, issues, aiAvailable)
  {
    RescoredExists(before, commits, prs, issues, aiAvailable);
    ghost var target :| Rescored(target, before, commits, prs, issues, aiAvailable);
    rows := map[];
    var rest := before.Keys;
    while rest != {}
      invariant Agrees(rows, target, rest)
      decreases rest
    {
      var login :| login in rest;
      var row := RescoreRow(before, login, target, commits, prs, issues, aiAvailable);
      rows, rest := rows[login := row], rest - {login};
    }
  }

  /** `rows` agrees with `target` on every key not in `rest`, and has no other key. */
  ghost predicate Agrees(rows: map<string, ContributorRow>, target: map<string, ContributorRow>, rest: set<string>) {
    rest <= target.Keys && rows.Keys == target.Keys - rest
    && forall login :: login in rows ==> rows[login] == target[login]
  }

  /** `ScoreContributor` on the row of `login`, seen as a lookup in the rescored table `target`. */
  method RescoreRow(before: map<string, ContributorRow>, login: string, ghost target: map<string, ContributorRow>,
                    commits: map<string, CommitRow>, prs: map<int, PullRequestRow>,
                    issues: map<int, IssueRow>, aiAvailable: bool)
    returns (r: ContributorRow)
    requires login in before && Rescored(target, before, commits, prs, issues, aiAvailable)
    ensures login in target && r == target[login]
  {
    r := ScoreContributor(before[login], login, commits, prs, issues, aiAvailable);
  }

  /** `_calculate_contributor_scores(repository, ai_client)`: every contributor row is rescored; no row is added or removed. */
  method CalculateContributorScores(repo: Repository, aiAvailable: bool)
    modifies repo`contributors
    ensures Rescored(repo.contributors, old(repo.contributors), repo.commits, repo.pullRequests, repo.issues, aiAvailable)
  {
    repo.contributors := RescoreAll(repo.contributors, repo.commits, repo.pullRequests, repo.issues, aiAvailable);
  }

  /** A contributor never has more merged pull requests than opened ones, nor more closed issues than opened ones. */
  lemma CountsBounded(prs: map<int, PullRequestRow>, issues: map<int, IssueRow>, login: string)
    ensures |MergedPullRequests(prs, login)| <= |OpenedPullRequests(prs, login)|
    ensures |ClosedIssues(issues, login)| <= |OpenedIssues(issues, login)|
  {
    SubsetCard(MergedPullRequests(prs, login), OpenedPullRequests(prs, login));
    SubsetCard(ClosedIssues(issues, login), OpenedIssues(issues, login));
  }

  lemma {:induction false} SubsetCard<T>(a: set<T>, b: set<T>)
    requires a <= b
    ensures |a| <= |b|
    decreases b
  {
    if a != {} {
      var x :| x in a;
      SubsetCard(a - {x}, b - {x});
    }
  }

  /** The commits linked to any of the given contributors. */
  function Attributed(commits: map<string, CommitRow>, logins: set<string>): (s: set<string>)
    ensures s <= commits.Keys
  {
    set sha | sha in commits && commits[sha].contributor.Some? && commits[sha].contributor.value in logins
  }

  function AuthoredCount(commits: map<string, CommitRow>): string -> nat {
    login => |Authored(commits, login)|
  }

  /** The commits of a set of contributors are those of one of them plus, apart from these, those of the others. */
  lemma AttributedSplit(commits: map<string, CommitRow>, logins: set<string>, l: string)
    requires l in logins
    ensures Attributed(commits, logins) == Authored(commits, l) + Attributed(commits, logins - {l})
    ensures Authored(commits, l) !! Attributed(commits, logins - {l})
  {
  }

  /**
   * The commit counts stored for a set of contributors add up to the number
   * of commits linked to one of them: a commit is counted for at most one
   * contributor, so the counts never add up to more than the stored commits.
   */
  lemma {:induction false} CommitsCountedOnce(commits: map<string, CommitRow>, logins: set<string>)
    ensures Sum(logins, AuthoredCount(commits)) == |Attributed(commits, logins)|
    ensures Sum(logins, AuthoredCount(commits)) <= |commits|
    decreases logins
  {
    if logins == {} {
      assert Attributed(commits, logins) == {};
    } else {
      var l :| l in logins;
      SumRemove(logins, AuthoredCount(commits), l);
      CommitsCountedOnce(commits, logins - {l});
      AttributedSplit(commits, logins, l);
    }
    SubsetCard(Attributed(commits, logins), commits.Keys);
  }
}
