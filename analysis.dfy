/**
 * The commit-group rebuild of `analyze_repository_data`: the date range
 * of the stored commits, and the loop that creates one `CommitGroup` per
 * calendar bucket holding at least one commit and links those commits to
 * it.
 */
module Analysis {
  import opened Calendar
  import opened Grouping
  import opened Models

  /** The day ordinal of a stored commit. */
  function Day(commits: map<string, CommitRow>, sha: string): int
    requires sha in commits
  {
    Ordinal(commits[sha].date)
  }

  /** `commits.filter(commit_date__date__gte=lo, commit_date__date__lte=hi)`. */
  function Members(commits: map<string, CommitRow>, b: Bucket): (s: set<string>)
    ensures forall sha :: sha in s <==> sha in commits && InBucket(Day(commits, sha), b)
  {
    set sha | sha in commits && InBucket(Ordinal(commits[sha].date), b)
  }

  function RowBucket(r: GroupRow): Bucket {
    Bucket(r.start, r.end)
  }

  /** The groups created and the group each commit is linked to. */
  datatype Grouped = Grouped(rows: seq<GroupRow>, links: map<string, nat>)

  /**
   * The loop over the buckets, in order: a bucket without commits is
   * skipped; otherwise a group is created for it, with its commit count,
   * and its commits are linked to that group.
   */
  function Rebuild(bs: seq<Bucket>, commits: map<string, CommitRow>, groupType: string): (g: Grouped)
    ensures |g.rows| <= |bs|
    decreases |bs|
  {
    if |bs| == 0 then Grouped([], map[])
    else
      var before := Rebuild(bs[..|bs| - 1], commits, groupType);
      var last := bs[|bs| - 1];
      var members := Members(commits, last);
      if |members| == 0 then before
      else Grouped(before.rows + [GroupRow(groupType, last.lo, last.hi, |members|)],
                   before.links + map sha | sha in members :: |before.rows|)
  }

  /** A group row made from one of the buckets, holding that bucket's commits. */
  predicate RowOf(r: GroupRow, bs: seq<Bucket>, commits: map<string, CommitRow>, groupType: string)
  {
    RowBucket(r) in bs && r.groupType == groupType
    && r.commitCount == |Members(commits, RowBucket(r))| && r.commitCount > 0
  }

  /** Each group is one of the buckets, holds the bucket's commit count, and that count is positive. */
  lemma {:induction false} RebuildRows(bs: seq<Bucket>, commits: map<string, CommitRow>, groupType: string)
    ensures forall r :: r in Rebuild(bs, commits, groupType).rows ==> RowOf(r, bs, commits, groupType)
    decreases |bs|
  {
    if |bs| > 0 {
      var init := bs[..|bs| - 1];
      RebuildRows(init, commits, groupType);
      var before := Rebuild(init, commits, groupType);
      var g := Rebuild(bs, commits, groupType);
      forall r | r in g.rows
        ensures RowOf(r, bs, commits, groupType)
      {
        if r in before.rows {
          var k :| 0 <= k < |init| && init[k] == RowBucket(r);
          assert bs[k] == init[k];
        }
      }
    }
  }

  /** A linked commit exists and its day lies in the period of the group it is linked to. */
  lemma {:induction false} RebuildLinksSound(bs: seq<Bucket>, commits: map<string, CommitRow>, groupType: string)
    ensures var g := Rebuild(bs, commits, groupType);
            forall sha :: sha in g.links ==>
              sha in commits && g.links[sha] < |g.rows| && InBucket(Day(commits, sha), RowBucket(g.rows[g.links[sha]]))
    decreases |bs|
  {
    if |bs| > 0 {
      var init := bs[..|bs| - 1];
      RebuildLinksSound(init, commits, groupType);
      var before := Rebuild(init, commits, groupType);
      var g := Rebuild(bs, commits, groupType);
      var last := bs[|bs| - 1];
      if |Members(commits, last)| > 0 {
        forall sha | sha in g.links
          ensures sha in commits && g.links[sha] < |g.rows| && InBucket(Day(commits, sha), RowBucket(g.rows[g.links[sha]]))
        {
          if sha in Members(commits, last) {
            assert g.links[sha] == |before.rows|;
          } else {
            assert g.links[sha] == before.links[sha];
            assert g.rows[before.links[sha]] == before.rows[before.links[sha]];
          }
        }
      }
    }
  }

  /** Every commit whose day lies in one of the buckets is linked. */
  lemma {:induction false} RebuildLinksComplete(bs: seq<Bucket>, commits: map<string, CommitRow>, groupType: string,
                                                 sha: string, k: int)
    requires sha in commits && 0 <= k < |bs| && InBucket(Day(commits, sha), bs[k])
    ensures sha in Rebuild(bs, commits, groupType).links
    decreases |bs|
  {
    var init := bs[..|bs| - 1];
    var last := bs[|bs| - 1];
    if k == |bs| - 1 {
      assert sha in Members(commits, last);
    } else {
      assert init[k] == bs[k];
      RebuildLinksComplete(init, commits, groupType, sha, k);
    }
  }

  /** The loop body of `analyze_repository_data` over the buckets. */
  method LinkCommits(bs: seq<Bucket>, commits: map<string, CommitRow>, groupType: string)
    returns (rows: seq<GroupRow>, links: map<string, nat>)
    ensures Grouped(rows, links) == Rebuild(bs, commits, groupType)
  {
    rows := [];
    links := map[];
    var i := 0;
    while i < |bs|
      invariant 0 <= i <= |bs|
      invariant Grouped(rows, links) == Rebuild(bs[..i], commits, groupType)
    {
      assert bs[..i + 1][..i] == bs[..i];
      var groupCommits := set sha | sha in commits && InBucket(Ordinal(commits[sha].date), bs[i]);
      if |groupCommits| > 0 {
        links := links + map sha | sha in groupCommits :: |rows|;
        rows := rows + [GroupRow(groupType, bs[i].lo, bs[i].hi, |groupCommits|)];
      }
      i := i + 1;
    }
    assert bs[..|bs|] == bs;
  }

  /** Groups that follow one another in time, each ending before the next starts. */
  predicate Ordered(rows: seq<GroupRow>) {
    (forall j :: 0 <= j < |rows| ==> rows[j].start <= rows[j].end)
    && (forall j, j' :: 0 <= j < j' < |rows| ==> rows[j].end < rows[j'].start)
  }

  /** Over contiguous buckets every group lies within the buckets' span. */
  lemma RebuildWithinSpan(bs: seq<Bucket>, commits: map<string, CommitRow>, groupType: string)
    requires Contiguous(bs)
    ensures forall r :: r in Rebuild(bs, commits, groupType).rows ==>
              bs[0].lo <= r.start && r.end <= bs[|bs| - 1].hi
  {
    RebuildRows(bs, commits, groupType);
    forall r | r in Rebuild(bs, commits, groupType).rows
      ensures bs[0].lo <= r.start && r.end <= bs[|bs| - 1].hi
    {
      var k :| 0 <= k < |bs| && bs[k] == RowBucket(r);
      BucketWithinSpan(bs, k);
    }
  }

  lemma BucketWithinSpan(bs: seq<Bucket>, k: int)
    requires Contiguous(bs) && 0 <= k < |bs|
    ensures bs[0].lo <= bs[k].lo && bs[k].hi <= bs[|bs| - 1].hi
  {
    if 0 < k {
      ContiguousOrdered(bs, 0, k);
    }
    if k < |bs| - 1 {
      ContiguousOrdered(bs, k, |bs| - 1);
    }
  }

  /** Over contiguous buckets the groups come out in time order. */
  lemma {:induction false} RebuildOrdered(bs: seq<Bucket>, commits: map<string, CommitRow>, groupType: string)
    requires Contiguous(bs)
    ensures Ordered(Rebuild(bs, commits, groupType).rows)
    decreases |bs|
  {
    if |bs| > 0 {
      var init := bs[..|bs| - 1];
      var last := bs[|bs| - 1];
      assert Contiguous(init);
      RebuildOrdered(init, commits, groupType);
      var before := Rebuild(init, commits, groupType).rows;
      var rows := Rebuild(bs, commits, groupType).rows;
      if |rows| > |before| {
        var r := rows[|before|];
        assert rows == before + [r] && r.start == last.lo && r.end == last.hi;
        if |init| > 0 {
          RebuildWithinSpan(init, commits, groupType);
          assert last.lo == init[|init| - 1].hi + 1;
        }
        AppendOrdered(before, r);
      }
    }
  }

  /** A group appended after every existing group ends keeps the groups in time order. */
  lemma AppendOrdered(rows: seq<GroupRow>, r: GroupRow)
    requires Ordered(rows) && r.start <= r.end
    requires forall q :: q in rows ==> q.end < r.start
    ensures Ordered(rows + [r])
  {
    var rows' := rows + [r];
    forall j, j' | 0 <= j < j' < |rows'| ensures rows'[j].end < rows'[j'].start {
      if j' == |rows| {
        assert rows[j] in rows;
      }
    }
  }

  /** The commits linked to group j. */
  function LinkedTo(links: map<string, nat>, j: nat): (s: set<string>)
    ensures forall sha :: sha in s <==> sha in links && links[sha] == j
  {
    set sha | sha in links && links[sha] == j
  }

  /**
   * Over contiguous buckets each group's `commit_count` is the number of
   * commits linked to it, and a commit is linked to the group whose
   * period contains its day exactly.
   */
  lemma LinkedCount(bs: seq<Bucket>, commits: map<string, CommitRow>, groupType: string, j: nat)
    requires Contiguous(bs)
    requires j < |Rebuild(bs, commits, groupType).rows|
    ensures LinkedTo(Rebuild(bs, commits, groupType).links, j) == Members(commits, RowBucket(Rebuild(bs, commits, groupType).rows[j]))
    ensures Rebuild(bs, commits, groupType).rows[j].commitCount == |LinkedTo(Rebuild(bs, commits, groupType).links, j)|
  {
    var g := Rebuild(bs, commits, groupType);
    RebuildOrdered(bs, commits, groupType);
    RebuildRows(bs, commits, groupType);
    RebuildLinksSound(bs, commits, groupType);
    var b := RowBucket(g.rows[j]);
    assert g.rows[j] in g.rows;
    var k :| 0 <= k < |bs| && bs[k] == b;
    forall sha | sha in Members(commits, b)
      ensures sha in g.links && g.links[sha] == j
    {
      RebuildLinksComplete(bs, commits, groupType, sha, k);
      var j' := g.links[sha];
      assert InBucket(Day(commits, sha), RowBucket(g.rows[j']));
    }
  }

  /**
   * The state the rebuild promises: every stored commit is linked to exactly
   * one group, whose period contains the commit's day; groups are in time
   * order, carry the requested type, and each counts exactly the commits
   * linked to it, at least one.
   */
  predicate Rebuilt(commits: map<string, CommitRow>, groupOf: map<string, nat>, groups: seq<GroupRow>, groupType: string) {
    groupOf.Keys == commits.Keys
    && (forall sha :: sha in groupOf ==>
          sha in commits && groupOf[sha] < |groups| && InBucket(Day(commits, sha), RowBucket(groups[groupOf[sha]])))
    && Ordered(groups)
    && (forall j :: 0 <= j < |groups| ==>
          groups[j].groupType == groupType && groups[j].commitCount == |LinkedTo(groupOf, j)| && groups[j].commitCount > 0)
  }

  /** Buckets that tile a span holding every commit day give a complete rebuild. */
  lemma RebuildCoversAll(bs: seq<Bucket>, commits: map<string, CommitRow>, groupType: string)
    requires Contiguous(bs) && |bs| > 0
    requires forall sha :: sha in commits ==> bs[0].lo <= Day(commits, sha) <= bs[|bs| - 1].hi
    ensures Rebuilt(commits, Rebuild(bs, commits, groupType).links, Rebuild(bs, commits, groupType).rows, groupType)
  {
    RebuildLinksSound(bs, commits, groupType);
    RebuildOrdered(bs, commits, groupType);
    RebuildLinksEvery(bs, commits, groupType);
    RebuildCounts(bs, commits, groupType);
  }

  /** Every commit in the tiled span is linked. */
  lemma RebuildLinksEvery(bs: seq<Bucket>, commits: map<string, CommitRow>, groupType: string)
    requires Contiguous(bs) && |bs| > 0
    requires forall sha :: sha in commits ==> bs[0].lo <= Day(commits, sha) <= bs[|bs| - 1].hi
    ensures commits.Keys <= Rebuild(bs, commits, groupType).links.Keys
  {
    forall sha | sha in commits
      ensures sha in Rebuild(bs, commits, groupType).links
    {
      var k := ContiguousCovers(bs, Day(commits, sha));
      RebuildLinksComplete(bs, commits, groupType, sha, k);
    }
  }

  /** Each group carries the requested type and counts exactly its linked commits, at least one. */
  lemma RebuildCounts(bs: seq<Bucket>, commits: map<string, CommitRow>, groupType: string)
    requires Contiguous(bs)
    ensures var g := Rebuild(bs, commits, groupType);
            forall j :: 0 <= j < |g.rows| ==>
              g.rows[j].groupType == groupType && g.rows[j].commitCount == |LinkedTo(g.links, j)| && g.rows[j].commitCount > 0
  {
    var g := Rebuild(bs, commits, groupType);
    RebuildRows(bs, commits, groupType);
    forall j | 0 <= j < |g.rows|
      ensures g.rows[j].groupType == groupType && g.rows[j].commitCount == |LinkedTo(g.links, j)| && g.rows[j].commitCount > 0
    {
      assert g.rows[j] in g.rows;
      LinkedCount(bs, commits, groupType, j);
    }
  }

  /** A Monday-to-Sunday week. */
  predicate IsWeek(b: Bucket) {
    WeekdayOf(b.lo) == 0 && b.hi == b.lo + 6
  }

  /** Month number k as a day interval, from its first to its last day. */
  ghost function MonthBucket(k: int): Bucket
    requires k >= 12
  {
    Bucket(Ordinal(MonthStart(k)), Ordinal(MonthEnd(k)))
  }

  /** A calendar month. */
  ghost predicate IsMonth(b: Bucket) {
    exists k :: k >= 12 && b == MonthBucket(k)
  }

  /** The weeks `_create_weekly_groups` emits for a range tile a span holding the whole range. */
  lemma WeeksCoverRange(startDate: Date, endDate: Date, groups: seq<Bucket>)
    requires Valid(startDate) && Valid(endDate) && Ordinal(startDate) <= Ordinal(endDate)
    requires |groups| == WeekCount(MondayOnOrBefore(startDate), Ordinal(endDate))
    requires forall i :: 0 <= i < |groups| ==> groups[i] == Week(MondayOnOrBefore(startDate), i)
    ensures Contiguous(groups) && |groups| > 0
    ensures groups[0].lo <= Ordinal(startDate) && Ordinal(endDate) <= groups[|groups| - 1].hi
    ensures forall b :: b in groups ==> IsWeek(b)
  {
    WeeksTile(MondayOnOrBefore(startDate), Ordinal(endDate), groups);
  }

  /** A range that is not empty starts no later than the month of its end. */
  lemma MonthsNonEmpty(startDate: Date, endDate: Date)
    requires Valid(startDate) && Valid(endDate) && Ordinal(startDate) <= Ordinal(endDate)
    ensures MonthCount(startDate, endDate) > 0
  {
    OrdinalMonotone(startDate, endDate);
  }

  /** Each monthly group is a calendar month. */
  lemma MonthGroupsAreMonths(k0: int, groups: seq<(Date, Date)>)
    requires k0 >= 12
    requires forall i :: 0 <= i < |groups| ==> groups[i] == Month(k0, i)
    ensures forall i :: 0 <= i < |groups| ==> Valid(groups[i].0) && Valid(groups[i].1)
    ensures forall b :: b in AsBuckets(groups) ==> IsMonth(b)
  {
    var bs := AsBuckets(groups);
    forall b | b in bs
      ensures IsMonth(b)
    {
      var i :| 0 <= i < |bs| && bs[i] == b;
      assert b == MonthBucket(k0 + i);
    }
  }

  /** The months `_create_monthly_groups` emits for a range tile a span holding the whole range. */
  lemma MonthsCoverRange(startDate: Date, endDate: Date, groups: seq<(Date, Date)>)
    requires Valid(startDate) && Valid(endDate) && Ordinal(startDate) <= Ordinal(endDate)
    requires |groups| == MonthCount(startDate, endDate)
    requires forall i :: 0 <= i < |groups| ==> groups[i] == Month(MonthIndex(startDate), i)
    ensures forall i :: 0 <= i < |groups| ==> Valid(groups[i].0) && Valid(groups[i].1)
    ensures Contiguous(AsBuckets(groups)) && |groups| > 0
    ensures AsBuckets(groups)[0].lo <= Ordinal(startDate) && Ordinal(endDate) <= AsBuckets(groups)[|groups| - 1].hi
    ensures forall b :: b in AsBuckets(groups) ==> IsMonth(b)
  {
    MonthsNonEmpty(startDate, endDate);
    MonthGroupsAreMonths(MonthIndex(startDate), groups);
    MonthsTile(startDate, endDate, groups);
  }

  /**
   * The range loop over the commits (`order_by("commit_date")`, then
   * `first()` and `last()`): the earliest and latest commit days.
   */
  method DateRange(commits: map<string, CommitRow>) returns (startDate: Date, endDate: Date)
    requires commits != map[]
    ensures Valid(startDate) && Valid(endDate)
    ensures exists sha :: sha in commits && commits[sha].date == startDate
    ensures exists sha :: sha in commits && commits[sha].date == endDate
    ensures forall sha :: sha in commits ==> Ordinal(startDate) <= Day(commits, sha) <= Ordinal(endDate)
  {
    var first :| first in commits;
    startDate, endDate := commits[first].date, commits[first].date;
    ghost var startSha, endSha := first, first;
    var rest := commits.Keys - {first};
    while rest != {}
      invariant rest <= commits.Keys
      invariant startSha in commits && commits[startSha].date == startDate
      invariant endSha in commits && commits[endSha].date == endDate
      invariant forall sha :: sha in commits && sha !in rest ==> Ordinal(startDate) <= Day(commits, sha) <= Ordinal(endDate)
      decreases rest
    {
      var sha :| sha in rest;
      var d := commits[sha].date;
      if Ordinal(d) < Ordinal(startDate) {
        startDate, startSha := d, sha;
      }
      if Ordinal(d) > Ordinal(endDate) {
        endDate, endSha := d, sha;
      }
      rest := rest - {sha};
    }
  }
}
