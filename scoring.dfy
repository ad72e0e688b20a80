/**
 * Contributor impact scores: `AIClient.calculate_impact_score` and the
 * fallback score used when no AI client could be created.
 *
 * The source adds floats (`additions * 0.1`, `deletions * 0.05`) and
 * truncates with `int()`.  `ExactScore` is that sum over exact rationals;
 * the method computes it in twentieths of a point on integers.
 */
module Scoring {

  function MinReal(x: real, y: real): real {
    if x <= y then x else y
  }

  function MinInt(x: int, y: int): int {
    if x <= y then x else y
  }

  /** The documented weights: 10 per commit, 0.1 per line added (at most 500), 0.05 per line deleted (at most 250), 50 per merged PR, 20 per opened PR, 30 per closed issue, 10 per opened issue. */
  function ExactScore(commits: nat, additions: nat, deletions: nat, prsMerged: nat, prsOpened: nat,
                      issuesClosed: nat, issuesOpened: nat): real
  {
    (commits * 10) as real
    + MinReal(additions as real * 0.1, 500.0)
    + MinReal(deletions as real * 0.05, 250.0)
    + (prsMerged * 50) as real
    + (prsOpened * 20) as real
    + (issuesClosed * 30) as real
    + (issuesOpened * 10) as real
  }

  /** `int(score)`: truncation, which is the floor for a non-negative score. */
  function TruncatedScore(commits: nat, additions: nat, deletions: nat, prsMerged: nat, prsOpened: nat,
                       issuesClosed: nat, issuesOpened: nat): int
  {
    ExactScore(commits, additions, deletions, prsMerged, prsOpened, issuesClosed, issuesOpened).Floor
  }

  /** The integer-weighted part of the score: every term but the two capped ones. */
  function BaseScore(commits: nat, prsMerged: nat, prsOpened: nat, issuesClosed: nat, issuesOpened: nat): nat {
    commits * 10 + prsMerged * 50 + prsOpened * 20 + issuesClosed * 30 + issuesOpened * 10
  }

  /** The capped terms in twentieths of a point: additions / 10 is 2 * additions twentieths, deletions / 20 is deletions twentieths. */
  function CappedTwentieths(additions: nat, deletions: nat): (t: nat)
    ensures t <= 15000
  {
    MinInt(2 * additions, 10000) + MinInt(deletions, 5000)
  }

  lemma CappedTermsExact(additions: nat, deletions: nat)
    ensures MinReal(additions as real * 0.1, 500.0) + MinReal(deletions as real * 0.05, 250.0)
            == CappedTwentieths(additions, deletions) as real / 20.0
  {
    assert additions as real * 0.1 == (2 * additions) as real / 20.0;
    assert deletions as real * 0.05 == deletions as real / 20.0;
  }

  /** The floor of n / 20 over the rationals is integer division of n by 20. */
  lemma FloorTwentieths(n: nat)
    ensures (n as real / 20.0).Floor == n / 20
  {
    var q, r := n / 20, n % 20;
    assert n as real / 20.0 == q as real + r as real / 20.0;
  }

  /** The same score on integers: the base plus the capped terms' twentieths, rounded down. */
  function ImpactScore(commits: nat, additions: nat, deletions: nat, prsMerged: nat, prsOpened: nat,
                       issuesClosed: nat, issuesOpened: nat): int
  {
    BaseScore(commits, prsMerged, prsOpened, issuesClosed, issuesOpened) + CappedTwentieths(additions, deletions) / 20
  }

  /** The truncated float sum and the integer form agree on every input. */
  lemma ScoreFromTwentieths(commits: nat, additions: nat, deletions: nat, prsMerged: nat, prsOpened: nat,
                            issuesClosed: nat, issuesOpened: nat)
    ensures TruncatedScore(commits, additions, deletions, prsMerged, prsOpened, issuesClosed, issuesOpened)
            == ImpactScore(commits, additions, deletions, prsMerged, prsOpened, issuesClosed, issuesOpened)
  {
    var base := BaseScore(commits, prsMerged, prsOpened, issuesClosed, issuesOpened);
    var capped := CappedTwentieths(additions, deletions);
    CappedTermsExact(additions, deletions);
    FloorTwentieths(20 * base + capped);
    assert ExactScore(commits, additions, deletions, prsMerged, prsOpened, issuesClosed, issuesOpened)
           == (20 * base + capped) as real / 20.0;
    assert (20 * base + capped) / 20 == base + capped / 20;
  }

  /** `calculate_impact_score`: the terms are added one by one, here in twentieths of a point. */
  method CalculateImpactScore(commits: nat, additions: nat, deletions: nat, prsMerged: nat, prsOpened: nat,
                              issuesClosed: nat, issuesOpened: nat) returns (score: int)
    ensures score == TruncatedScore(commits, additions, deletions, prsMerged, prsOpened, issuesClosed, issuesOpened)
    ensures score == ImpactScore(commits, additions, deletions, prsMerged, prsOpened, issuesClosed, issuesOpened)
  {
    var twentieths := 0;
    twentieths := twentieths + commits * 200;
    twentieths := twentieths + MinInt(additions * 2, 10000);
    twentieths := twentieths + MinInt(deletions, 5000);
    twentieths := twentieths + prsMerged * 1000;
    twentieths := twentieths + prsOpened * 400;
    twentieths := twentieths + issuesClosed * 600;
    twentieths := twentieths + issuesOpened * 200;
    score := twentieths / 20;
    ScoreFromTwentieths(commits, additions, deletions, prsMerged, prsOpened, issuesClosed, issuesOpened);
    assert twentieths == 20 * BaseScore(commits, prsMerged, prsOpened, issuesClosed, issuesOpened)
                         + CappedTwentieths(additions, deletions);
  }

  /**
   * The score lies between the integer-weighted terms and that sum plus
   * 750; with no activity at all it is 0.
   */
  lemma ImpactScoreBounds(commits: nat, additions: nat, deletions: nat, prsMerged: nat, prsOpened: nat,
                          issuesClosed: nat, issuesOpened: nat)
    ensures var s := TruncatedScore(commits, additions, deletions, prsMerged, prsOpened, issuesClosed, issuesOpened);
            var base := BaseScore(commits, prsMerged, prsOpened, issuesClosed, issuesOpened);
            base <= s <= base + 750
    ensures additions == 0 && deletions == 0 && BaseScore(commits, prsMerged, prsOpened, issuesClosed, issuesOpened) == 0
            ==> TruncatedScore(commits, additions, deletions, prsMerged, prsOpened, issuesClosed, issuesOpened) == 0
  {
    ScoreFromTwentieths(commits, additions, deletions, prsMerged, prsOpened, issuesClosed, issuesOpened);
  }

  /**
   * The additions term contributes at most 500 points and stops growing at
   * 5000 lines; the deletions term contributes at most 250 and stops at
   * 5000 lines.
   */
  lemma ImpactScoreCaps(commits: nat, additions: nat, deletions: nat, prsMerged: nat, prsOpened: nat,
                        issuesClosed: nat, issuesOpened: nat)
    ensures TruncatedScore(commits, additions, deletions, prsMerged, prsOpened, issuesClosed, issuesOpened)
            <= TruncatedScore(commits, 0, deletions, prsMerged, prsOpened, issuesClosed, issuesOpened) + 500
    ensures TruncatedScore(commits, additions, deletions, prsMerged, prsOpened, issuesClosed, issuesOpened)
            <= TruncatedScore(commits, additions, 0, prsMerged, prsOpened, issuesClosed, issuesOpened) + 250
    ensures additions >= 5000 ==>
              TruncatedScore(commits, additions, deletions, prsMerged, prsOpened, issuesClosed, issuesOpened)
              == TruncatedScore(commits, 5000, deletions, prsMerged, prsOpened, issuesClosed, issuesOpened)
    ensures deletions >= 5000 ==>
              TruncatedScore(commits, additions, deletions, prsMerged, prsOpened, issuesClosed, issuesOpened)
              == TruncatedScore(commits, additions, 5000, prsMerged, prsOpened, issuesClosed, issuesOpened)
  {
    ScoreFromTwentieths(commits, additions, deletions, prsMerged, prsOpened, issuesClosed, issuesOpened);
    ScoreFromTwentieths(commits, 0, deletions, prsMerged, prsOpened, issuesClosed, issuesOpened);
    ScoreFromTwentieths(commits, additions, 0, prsMerged, prsOpened, issuesClosed, issuesOpened);
    ScoreFromTwentieths(commits, 5000, deletions, prsMerged, prsOpened, issuesClosed, issuesOpened);
    ScoreFromTwentieths(commits, additions, 5000, prsMerged, prsOpened, issuesClosed, issuesOpened);
  }

  /** More activity of any kind never lowers the score. */
  lemma ImpactScoreMonotone(c1: nat, a1: nat, d1: nat, pm1: nat, po1: nat, ic1: nat, io1: nat,
                            c2: nat, a2: nat, d2: nat, pm2: nat, po2: nat, ic2: nat, io2: nat)
    requires c1 <= c2 && a1 <= a2 && d1 <= d2 && pm1 <= pm2 && po1 <= po2 && ic1 <= ic2 && io1 <= io2
    ensures TruncatedScore(c1, a1, d1, pm1, po1, ic1, io1) <= TruncatedScore(c2, a2, d2, pm2, po2, ic2, io2)
  {
    ScoreFromTwentieths(c1, a1, d1, pm1, po1, ic1, io1);
    ScoreFromTwentieths(c2, a2, d2, pm2, po2, ic2, io2);
    assert CappedTwentieths(a1, d1) <= CappedTwentieths(a2, d2);
  }

  /** The score `_calculate_contributor_scores` stores when no AI client is available. */
  function FallbackScore(totalCommits: nat, prsMerged: nat, prsOpened: nat): nat {
    totalCommits * 10 + prsMerged * 50 + prsOpened * 20
  }

  /** The fallback never exceeds the AI client's score for the same activity. */
  lemma FallbackNotAbove(commits: nat, additions: nat, deletions: nat, prsMerged: nat, prsOpened: nat,
                         issuesClosed: nat, issuesOpened: nat)
    ensures FallbackScore(commits, prsMerged, prsOpened)
            <= TruncatedScore(commits, additions, deletions, prsMerged, prsOpened, issuesClosed, issuesOpened)
    ensures issuesClosed == 0 && issuesOpened == 0 && additions == 0 && deletions == 0 ==>
              FallbackScore(commits, prsMerged, prsOpened)
              == TruncatedScore(commits, additions, deletions, prsMerged, prsOpened, issuesClosed, issuesOpened)
  {
    ScoreFromTwentieths(commits, additions, deletions, prsMerged, prsOpened, issuesClosed, issuesOpened);
  }
}
