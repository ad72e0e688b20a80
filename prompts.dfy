/**
 * The list and string truncation in the AI client's prompt builders
 * (`generate_commit_group_summary`, `generate_overall_summary`).  The
 * fixed wording around these lists and the AI calls themselves are not
 * modelled.
 */
module Prompts {
  import opened Text

  const CommitLineLimit: nat := 50
  const ShaPrefix: nat := 7
  const MessagePrefix: nat := 200
  const PullRequestLineLimit: nat := 20
  const IssueLineLimit: nat := 20
  const PeriodLimit: nat := 12
  const TopContributorLimit: nat := 10

  const NoPullRequests := "No pull requests in this period"
  const NoIssues := "No issues in this period"

  datatype CommitSummary = CommitSummary(sha: string, message: string, author: string)
  datatype PullRequestSummary = PullRequestSummary(number: int, title: string, state: string, author: string)
  datatype IssueSummary = IssueSummary(number: int, title: string, state: string)
  datatype PeriodSummary = PeriodSummary(period: string, summary: string)
  datatype TopContributor = TopContributor(username: string, commits: int, impactScore: int)

  function Min(x: int, y: int): int {
    if x <= y then x else y
  }

  /** `- {sha[:7]}: {message[:200]} (by {author})`. */
  function CommitLine(c: CommitSummary): (line: string)
    ensures StartsWith(line, "- ")
    ensures line == "- " + c.sha[..Min(|c.sha|, ShaPrefix)] + ": " + c.message[..Min(|c.message|, MessagePrefix)]
                    + " (by " + c.author + ")"
    ensures |line| <= ShaPrefix + MessagePrefix + |c.author| + 10
  {
    "- " + Take(c.sha, ShaPrefix) + ": " + Take(c.message, MessagePrefix) + " (by " + c.author + ")"
  }

  /** One line for each of the first 50 commits, in order. */
  function CommitLines(commits: seq<CommitSummary>): (ls: seq<string>)
    ensures |ls| == Min(|commits|, CommitLineLimit)
    ensures forall i :: 0 <= i < |ls| ==> ls[i] == CommitLine(commits[i])
  {
    var cs := Take(commits, CommitLineLimit);
    seq(|cs|, i requires 0 <= i < |cs| => CommitLine(cs[i]))
  }

  function CommitsText(commits: seq<CommitSummary>): string {
    Join(CommitLines(commits), "\n")
  }

  /** `- PR #{number}: {title} ({state}) by {author}`. */
  function PullRequestLine(p: PullRequestSummary): (line: string)
    ensures StartsWith(line, "- PR #")
  {
    "- PR #" + IntToString(p.number) + ": " + p.title + " (" + p.state + ") by " + p.author
  }

  /** One line for each of the first 20 pull requests, in order. */
  function PullRequestLines(prs: seq<PullRequestSummary>): (ls: seq<string>)
    ensures |ls| == Min(|prs|, PullRequestLineLimit)
    ensures forall i :: 0 <= i < |ls| ==> ls[i] == PullRequestLine(prs[i])
  {
    var ps := Take(prs, PullRequestLineLimit);
    seq(|ps|, i requires 0 <= i < |ps| => PullRequestLine(ps[i]))
  }

  function PullRequestsText(prs: seq<PullRequestSummary>): string {
    if |prs| > 0 then Join(PullRequestLines(prs), "\n") else NoPullRequests
  }

  /** `- Issue #{number}: {title} ({state})`. */
  function IssueLine(x: IssueSummary): (line: string)
    ensures StartsWith(line, "- Issue #")
  {
    "- Issue #" + IntToString(x.number) + ": " + x.title + " (" + x.state + ")"
  }

  /** One line for each of the first 20 issues, in order. */
  function IssueLines(issues: seq<IssueSummary>): (ls: seq<string>)
    ensures |ls| == Min(|issues|, IssueLineLimit)
    ensures forall i :: 0 <= i < |ls| ==> ls[i] == IssueLine(issues[i])
  {
    var xs := Take(issues, IssueLineLimit);
    seq(|xs|, i requires 0 <= i < |xs| => IssueLine(xs[i]))
  }

  function IssuesText(issues: seq<IssueSummary>): string {
    if |issues| > 0 then Join(IssueLines(issues), "\n") else NoIssues
  }

  /** The pull request section is the fixed placeholder exactly when there is no pull request. */
  lemma PullRequestsPlaceholder(prs: seq<PullRequestSummary>)
    ensures PullRequestsText(prs) == NoPullRequests <==> |prs| == 0
  {
    if |prs| > 0 {
      var ls := PullRequestLines(prs);
      JoinStartsWith(ls, "\n", "- PR #");
      assert PullRequestsText(prs)[0] == '-';
    }
  }

  /** The issue section is the fixed placeholder exactly when there is no issue. */
  lemma IssuesPlaceholder(issues: seq<IssueSummary>)
    ensures IssuesText(issues) == NoIssues <==> |issues| == 0
  {
    if |issues| > 0 {
      var ls := IssueLines(issues);
      JoinStartsWith(ls, "\n", "- Issue #");
      assert IssuesText(issues)[0] == '-';
    }
  }

  /** `### {period}\n{summary}` for each of the first 12 period summaries, in order. */
  function PeriodBlocks(groups: seq<PeriodSummary>): (bs: seq<string>)
    ensures |bs| == Min(|groups|, PeriodLimit)
    ensures forall i :: 0 <= i < |bs| ==> bs[i] == "### " + groups[i].period + "\n" + groups[i].summary
  {
    var gs := Take(groups, PeriodLimit);
    seq(|gs|, i requires 0 <= i < |gs| => "### " + gs[i].period + "\n" + gs[i].summary)
  }

  function PeriodsText(groups: seq<PeriodSummary>): string {
    Join(PeriodBlocks(groups), "\n\n")
  }

  /** `- {username}: {commits} commits, impact score: {impact_score}` for each of the first 10 contributors. */
  function TopContributorLines(top: seq<TopContributor>): (ls: seq<string>)
    ensures |ls| == Min(|top|, TopContributorLimit)
    ensures forall i :: 0 <= i < |ls| ==>
              ls[i] == "- " + top[i].username + ": " + IntToString(top[i].commits)
                       + " commits, impact score: " + IntToString(top[i].impactScore)
  {
    var ts := Take(top, TopContributorLimit);
    seq(|ts|, i requires 0 <= i < |ts| =>
      "- " + ts[i].username + ": " + IntToString(ts[i].commits) + " commits, impact score: " + IntToString(ts[i].impactScore))
  }

  function TopContributorsText(top: seq<TopContributor>): string {
    Join(TopContributorLines(top), "\n")
  }
}
