/**
 * The repository app's input validation: the GitHub URL parser of
 * `RepositoryCreateSerializer`, its per-user limit and duplicate checks,
 * and the cron rule of `RepositoryUpdateSerializer`.
 *
 * `re.match` with the two URL patterns is modelled as the regular
 * expression engine runs it: anchored at the start, the owner group taking
 * everything up to the first slash, the lazy repository group taking the
 * shortest slash-free prefix after which the rest of the pattern matches,
 * and `$` matching at the very end or before a final newline.
 */
module RepositorySerializers {
  import opened Wrappers
  import opened Text
  import opened Models

  /** `MAX_REPOSITORIES_PER_USER`. */
  const MaxRepositoriesPerUser: nat := 2

  const InvalidUrlMessage := "Invalid GitHub repository URL. Please use format: https://github.com/owner/repo"
  const DuplicateMessage := "You have already added this repository."
  const CronFrequencyMessage := "Cron frequency is required when cron is enabled."

  function LimitMessage(): string {
    "You have reached the maximum limit of " + NatToString(MaxRepositoriesPerUser) + " repositories."
  }

  predicate NoSlash(s: string) {
    forall i :: 0 <= i < |s| ==> s[i] != '/'
  }

  /** The two patterns `validate_github_repo_url` tries, in this order. */
  datatype Pattern = HttpsPattern | SshPattern

  /** What `https?://github\.com/` and `git@github\.com:` match. */
  function Prefixes(p: Pattern): set<string> {
    match p
    case HttpsPattern => {"http://github.com/", "https://github.com/"}
    case SshPattern => {"git@github.com:"}
  }

  /**
   * What may follow the repository group: `(?:\.git)?/?$` in the first
   * pattern and `(?:\.git)?$` in the second, where `$` also matches just
   * before a newline that ends the string.
   */
  function Tails(p: Pattern): set<string> {
    match p
    case HttpsPattern => {"", ".git", "/", ".git/", "\n", ".git\n", "/\n", ".git/\n"}
    case SshPattern => {"", ".git", "\n", ".git\n"}
  }

  /** The literal start of a pattern, and what follows it. */
  function AfterPrefix(p: Pattern, value: string): (r: Option<(string, string)>)
    ensures r.Some? ==> r.value.0 in Prefixes(p) && value == r.value.0 + r.value.1
    ensures r.None? ==> forall pre :: pre in Prefixes(p) ==> !StartsWith(value, pre)
  {
    match p
    case HttpsPattern =>
      if StartsWith(value, "https://github.com/") then Some(("https://github.com/", value[19..]))
      else if StartsWith(value, "http://github.com/") then Some(("http://github.com/", value[18..]))
      else None
    case SshPattern =>
      if StartsWith(value, "git@github.com:") then Some(("git@github.com:", value[15..])) else None
  }

  /** `([^/]+)/`: the text before the first slash, and the text after it. */
  function SplitAtSlash(s: string): (r: Option<(string, string)>)
    ensures r.Some? ==> s == r.value.0 + "/" + r.value.1 && NoSlash(r.value.0)
    ensures r.None? ==> NoSlash(s)
    decreases |s|
  {
    if |s| == 0 then None
    else if s[0] == '/' then Some(("", s[1..]))
    else
      match SplitAtSlash(s[1..])
      case None => None
      case Some(split) => Some(([s[0]] + split.0, split.1))
  }

  /**
   * `([^/]+?)` followed by a tail: lengths are tried from `n` upwards, and
   * the first slash-free prefix of `r` whose remainder is a tail is taken.
   */
  function LazyGroup(r: string, tails: set<string>, n: nat): (g: Option<string>)
    requires 1 <= n <= |r| + 1 && NoSlash(r[..n - 1])
    ensures g.Some? ==> n <= |g.value| <= |r| && g.value == r[..|g.value|] && NoSlash(g.value)
                        && r[|g.value|..] in tails
                        && forall k :: n <= k < |g.value| ==> r[k..] !in tails
    ensures g.None? ==> forall k :: n <= k <= |r| && NoSlash(r[..k]) ==> r[k..] !in tails
    decreases |r| - n
  {
    if n > |r| || r[n - 1] == '/' then None
    else if r[n..] in tails then Some(r[..n])
    else
      assert r[..n] == r[..n - 1] + [r[n - 1]];
      LazyGroup(r, tails, n + 1)
  }

  /** A successful match: the literal start, the two groups and what follows the repository group. */
  datatype UrlMatch = UrlMatch(prefix: string, owner: string, repo: string, tail: string)

  /** `value` is the prefix, a non-empty slash-free owner, a slash, a non-empty slash-free repository and a tail. */
  predicate Shaped(p: Pattern, value: string, m: UrlMatch) {
    m.prefix in Prefixes(p) && m.tail in Tails(p)
    && value == m.prefix + m.owner + "/" + m.repo + m.tail
    && m.owner != "" && NoSlash(m.owner) && m.repo != "" && NoSlash(m.repo)
  }

  /** No shorter repository group leaves a tail: what the lazy quantifier picks. */
  predicate Shortest(p: Pattern, m: UrlMatch) {
    forall k :: 1 <= k < |m.repo| ==> m.repo[k..] + m.tail !in Tails(p)
  }

  /**
   * `([^/]+?)(?:\.git)?/?$` (or its second form) on the text after the
   * owner's slash: the shortest non-empty slash-free repository group that
   * leaves a tail, and that tail.
   */
  function RepoGroup(p: Pattern, rest: string): (r: Option<(string, string)>)
    ensures r.Some? ==> rest == r.value.0 + r.value.1 && r.value.0 != "" && NoSlash(r.value.0)
                        && r.value.1 in Tails(p)
                        && forall k :: 1 <= k < |r.value.0| ==> r.value.0[k..] + r.value.1 !in Tails(p)
  {
    if |rest| == 0 then None
    else
      match LazyGroup(rest, Tails(p), 1)
      case None => None
      case Some(repo) =>
        var tail := rest[|repo|..];
        assert rest == repo + tail;
        LazyGroupShortest(rest, repo, Tails(p));
        Some((repo, tail))
  }

  /** A suffix of the repository group followed by the tail is a suffix of the text. */
  lemma LazyGroupShortest(rest: string, repo: string, tails: set<string>)
    requires |repo| <= |rest| && repo == rest[..|repo|]
    requires forall k :: 1 <= k < |repo| ==> rest[k..] !in tails
    ensures forall k :: 1 <= k < |repo| ==> repo[k..] + rest[|repo|..] !in tails
  {
    forall k | 1 <= k < |repo| ensures repo[k..] + rest[|repo|..] !in tails {
      assert repo[k..] + rest[|repo|..] == rest[k..];
    }
  }

  /** `re.match(pattern, value)`. */
  function MatchPattern(p: Pattern, value: string): (r: Option<UrlMatch>)
    ensures r.Some? ==> Shaped(p, value, r.value) && Shortest(p, r.value)
  {
    match AfterPrefix(p, value)
    case None => None
    case Some(start) =>
      match SplitAtSlash(start.1)
      case None => None
      case Some(split) =>
        if split.0 == "" then None
        else
          match RepoGroup(p, split.1)
          case None => None
          case Some(group) =>
            assert value == start.0 + split.0 + "/" + group.0 + group.1 by {
              assert start.1 == split.0 + "/" + (group.0 + group.1);
            }
            Some(UrlMatch(start.0, split.0, group.0, group.1))
  }

  /** The three prefixes start differently, so at most one of them starts a string. */
  lemma PrefixUnique(p: Pattern, value: string, pre: string, pre': string)
    requires pre in Prefixes(p) && pre' in Prefixes(p)
    requires StartsWith(value, pre) && StartsWith(value, pre')
    ensures pre == pre'
  {
    assert value[..|pre|] == pre && value[..|pre'|] == pre';
    assert pre[4] == value[4] == pre'[4];
  }

  /** A string that starts with one of a pattern's prefixes has that prefix taken off. */
  lemma PrefixFound(p: Pattern, value: string, pre: string)
    requires pre in Prefixes(p) && StartsWith(value, pre)
    ensures AfterPrefix(p, value) == Some((pre, value[|pre|..]))
  {
    var start := AfterPrefix(p, value);
    assert start.Some?;
    assert StartsWith(value, start.value.0);
    PrefixUnique(p, value, start.value.0, pre);
  }

  /**
   * A slash-free repository name followed by a tail is matched by the lazy
   * group: by the name itself when no shorter group leaves a tail, and
   * otherwise by a shorter prefix of it.
   */
  lemma RepoGroupComplete(p: Pattern, repo: string, tail: string)
    requires repo != "" && NoSlash(repo) && tail in Tails(p)
    ensures RepoGroup(p, repo + tail).Some?
    ensures var g := RepoGroup(p, repo + tail).value.0;
            |g| <= |repo| && g == repo[..|g|]
    ensures (forall k :: 1 <= k < |repo| ==> repo[k..] + tail !in Tails(p)) ==>
              RepoGroup(p, repo + tail) == Some((repo, tail))
  {
    var r := repo + tail;
    assert r[..|repo|] == repo && r[|repo|..] == tail;
    assert NoSlash(r[..0]);
    assert NoSlash(r[..|repo|]);
    var g := LazyGroup(r, Tails(p), 1);
    assert g.Some?;
    assert |g.value| <= |repo|;
    assert g.value == r[..|g.value|] == repo[..|g.value|];
    if forall k :: 1 <= k < |repo| ==> repo[k..] + tail !in Tails(p) {
      forall k | 1 <= k < |repo| ensures r[k..] !in Tails(p) {
        assert r[k..] == repo[k..] + tail;
      }
      assert |g.value| == |repo|;
    }
  }

  /**
   * Completeness: a string of the accepted shape is matched, with the same
   * prefix and owner, and with the shortest repository group that leaves a
   * tail; when the given group is itself the shortest, the match is exactly it.
   */
  lemma MatchComplete(p: Pattern, value: string, m: UrlMatch)
    requires Shaped(p, value, m)
    ensures MatchPattern(p, value).Some?
    ensures var r := MatchPattern(p, value).value;
            r.prefix == m.prefix && r.owner == m.owner && |r.repo| <= |m.repo| && r.repo == m.repo[..|r.repo|]
    ensures Shortest(p, m) ==> MatchPattern(p, value) == Some(m)
  {
    var rest := m.owner + "/" + (m.repo + m.tail);
    assert value == m.prefix + rest;
    assert value[|m.prefix|..] == rest;
    PrefixFound(p, value, m.prefix);
    OwnerFirst(m.owner, m.repo + m.tail);
    RepoGroupComplete(p, m.repo, m.tail);
    MatchSteps(p, value, m.prefix, rest, m.owner, m.repo + m.tail);
  }

  /** The three steps of a match, each taken on what the previous one left. */
  lemma MatchSteps(p: Pattern, value: string, pre: string, rest: string, owner: string, after: string)
    requires AfterPrefix(p, value) == Some((pre, rest))
    requires SplitAtSlash(rest) == Some((owner, after)) && owner != ""
    requires RepoGroup(p, after).Some?
    ensures MatchPattern(p, value)
            == Some(UrlMatch(pre, owner, RepoGroup(p, after).value.0, RepoGroup(p, after).value.1))
  {
  }

  /** The owner group ends at the first slash. */
  lemma {:induction false} OwnerFirst(owner: string, rest: string)
    requires NoSlash(owner)
    ensures SplitAtSlash(owner + "/" + rest) == Some((owner, rest))
    decreases |owner|
  {
    if |owner| > 0 {
      assert (owner + "/" + rest)[1..] == owner[1..] + "/" + rest;
      OwnerFirst(owner[1..], rest);
      assert [owner[0]] + owner[1..] == owner;
    } else {
      assert (owner + "/" + rest)[1..] == rest;
    }
  }

  /** The owner and repository groups, or nothing: the first pattern that matches wins. */
  datatype ParsedUrl = ParsedUrl(owner: string, repo: string)

  function ParseUrl(value: string): Option<ParsedUrl> {
    match MatchPattern(HttpsPattern, value)
    case Some(m) => Some(ParsedUrl(m.owner, m.repo))
    case None =>
      match MatchPattern(SshPattern, value)
      case Some(m) => Some(ParsedUrl(m.owner, m.repo))
      case None => None
  }

  /**
   * Soundness: what the parser returns comes from a string of the accepted
   * shape, split at the owner's slash and at the shortest tail.
   */
  lemma ParseUrlSound(value: string)
    requires ParseUrl(value).Some?
    ensures exists p, m :: Shaped(p, value, m) && Shortest(p, m) && ParseUrl(value).value == ParsedUrl(m.owner, m.repo)
  {
    var p := if MatchPattern(HttpsPattern, value).Some? then HttpsPattern else SshPattern;
    var m := MatchPattern(p, value).value;
    assert Shaped(p, value, m) && Shortest(p, m);
  }

  /** A repository name that the lazy group cannot cut short: it ends neither in ".git" nor in a newline. */
  predicate PlainName(repo: string) {
    repo != "" && NoSlash(repo) && !EndsWith(repo, ".git") && !EndsWith(repo, "\n")
  }

  /** The last character of a plain name is neither a slash nor a newline, and its last four are not ".git". */
  lemma PlainNameEnd(repo: string)
    requires PlainName(repo)
    ensures repo[|repo| - 1] != '/' && repo[|repo| - 1] != '\n'
    ensures |repo| >= 4 ==> repo[|repo| - 4..] != ".git"
  {
    assert repo[|repo| - 1..] == [repo[|repo| - 1]];
  }

  /** Every tail is empty, ".git", "/", ".git/", or ends in a newline. */
  lemma TailCases(p: Pattern, t: string)
    requires t in Tails(p)
    ensures t == "" || t == ".git" || t == "/" || t == ".git/" || (|t| > 0 && t[|t| - 1] == '\n')
  {
  }

  lemma PlainNameShortest(p: Pattern, m: UrlMatch)
    requires PlainName(m.repo) && m.tail == ""
    ensures Shortest(p, m)
  {
    PlainNameEnd(m.repo);
    forall k | 1 <= k < |m.repo| ensures m.repo[k..] + m.tail !in Tails(p) {
      var s := m.repo[k..];
      assert m.repo[k..] + m.tail == s;
      assert s[|s| - 1] == m.repo[|m.repo| - 1];
      assert |s| == 4 ==> m.repo[|m.repo| - 4..] == s;
      if s in Tails(p) {
        TailCases(p, s);
      }
    }
  }

  /**
   * The URL forms the serializer advertises parse back to their owner and
   * repository: `https://github.com/<owner>/<repo>`, the same with ".git"
   * or a trailing slash, and `git@github.com:<owner>/<repo>.git`.
   */
  lemma ParseUrlRoundTrip(owner: string, repo: string)
    requires owner != "" && NoSlash(owner) && PlainName(repo)
    ensures ParseUrl("https://github.com/" + owner + "/" + repo) == Some(ParsedUrl(owner, repo))
    ensures ParseUrl("https://github.com/" + owner + "/" + repo + ".git") == Some(ParsedUrl(owner, repo))
    ensures ParseUrl("http://github.com/" + owner + "/" + repo + "/") == Some(ParsedUrl(owner, repo))
    ensures ParseUrl("git@github.com:" + owner + "/" + repo + ".git") == Some(ParsedUrl(owner, repo))
  {
    var plain := "https://github.com/" + owner + "/" + repo;
    assert plain + "" == plain;
    RoundTripHttps(owner, repo, "https://github.com/", "");
    RoundTripHttps(owner, repo, "https://github.com/", ".git");
    RoundTripHttps(owner, repo, "http://github.com/", "/");
    RoundTripSsh(owner, repo);
  }

  /** The first pattern, with one of the tails a plain name can carry. */
  lemma RoundTripHttps(owner: string, repo: string, prefix: string, tail: string)
    requires owner != "" && NoSlash(owner) && PlainName(repo)
    requires prefix in Prefixes(HttpsPattern) && (tail == "" || tail == ".git" || tail == "/")
    ensures ParseUrl(prefix + owner + "/" + repo + tail) == Some(ParsedUrl(owner, repo))
  {
    var m := UrlMatch(prefix, owner, repo, "");
    PlainNameShortest(HttpsPattern, m);
    if tail != "" {
      ShortestWithTail(HttpsPattern, m, tail);
    }
    MatchComplete(HttpsPattern, prefix + owner + "/" + repo + tail, m.(tail := tail));
  }

  /** The second pattern, which the first one does not shadow. */
  lemma RoundTripSsh(owner: string, repo: string)
    requires owner != "" && NoSlash(owner) && PlainName(repo)
    ensures ParseUrl("git@github.com:" + owner + "/" + repo + ".git") == Some(ParsedUrl(owner, repo))
  {
    var s := UrlMatch("git@github.com:", owner, repo, "");
    PlainNameShortest(SshPattern, s);
    ShortestWithTail(SshPattern, s, ".git");
    var v := "git@github.com:" + owner + "/" + repo + ".git";
    MatchComplete(SshPattern, v, s.(tail := ".git"));
    assert v[0] == 'g';
    assert AfterPrefix(HttpsPattern, v).None?;
  }

  /** A plain name stays the shortest group when ".git" or "/" follows it. */
  lemma ShortestWithTail(p: Pattern, m: UrlMatch, tail: string)
    requires PlainName(m.repo) && m.tail == "" && (tail == ".git" || tail == "/")
    ensures Shortest(p, m.(tail := tail))
  {
    PlainNameEnd(m.repo);
    forall k | 1 <= k < |m.repo| ensures m.repo[k..] + tail !in Tails(p) {
      var s := m.repo[k..] + tail;
      var n := |m.repo| - k;
      assert s[..n] == m.repo[k..];
      assert s[|s| - 1] == tail[|tail| - 1];
      assert n == 4 ==> m.repo[|m.repo| - 4..] == s[..n];
      if s in Tails(p) {
        TailCases(p, s);
      }
    }
  }

  // ---------------------------------------------------------------- the repository name

  /**
   * `repo_name.replace('.git', '')` as written: every occurrence of ".git"
   * is removed, wherever it is.
   */
  function RepoNameAsWritten(repo: string): (r: string)
    ensures |r| <= |repo|
  {
    RemoveAll(repo, ".git")
  }

  /** A real repository name (a GitHub Pages site) that the cleanup as written mangles. */
  lemma RepoNameAsWrittenMangles()
    ensures ParseUrl("https://github.com/" + "octo" + "/" + "octo.github.io") == Some(ParsedUrl("octo", "octo.github.io"))
    ensures RepoNameAsWritten("octo.github.io") == "octohub.io"
    ensures CleanRepoName("octo.github.io") == "octo.github.io"
  {
    assert PlainName("octo.github.io") by {
      assert "octo.github.io"[10..] == "b.io";
      assert "octo.github.io"[13..] == "o";
    }
    ParseUrlRoundTrip("octo", "octo.github.io");
    RemovesInnerGit();
  }

  /**
   * One `replace` pass can leave ".git" in the name: removing the inner
   * ".git" of "a.g.gitit" joins "a.g" and "it" into "a.git".
   */
  lemma RepoNameAsWrittenCanKeepGit()
    ensures ParseUrl("https://github.com/" + "o" + "/" + "a.g.gitit") == Some(ParsedUrl("o", "a.g.gitit"))
    ensures RepoNameAsWritten("a.g.gitit") == "a.git"
    ensures Contains(RepoNameAsWritten("a.g.gitit"), ".git")
  {
    KeepGitParses();
    KeepGitName();
  }

  /** `https://github.com/o/a.g.gitit` is accepted with the repository group "a.g.gitit". */
  lemma KeepGitParses()
    ensures ParseUrl("https://github.com/" + "o" + "/" + "a.g.gitit") == Some(ParsedUrl("o", "a.g.gitit"))
  {
    assert PlainName("a.g.gitit") by {
      assert "a.g.gitit"[5..] == "itit";
      assert "a.g.gitit"[8..] == "t";
    }
    ParseUrlRoundTrip("o", "a.g.gitit");
  }

  /** The name as written for "a.g.gitit" is "a.git", which holds ".git". */
  lemma KeepGitName()
    ensures RepoNameAsWritten("a.g.gitit") == "a.git"
    ensures Contains(RepoNameAsWritten("a.g.gitit"), ".git")
  {
    RemoveJoinsAroundGit();
    assert OccursAt("a.git", ".git", 1);
  }

  /** `"a.g.gitit".replace(".git", "")`, one character at a time. */
  lemma RemoveJoinsAroundGit()
    ensures RemoveAll("a.g.gitit", ".git") == "a.git"
  {
    assert StartsWith(".gitit", ".git") && ".gitit"[4..] == "it";
    KeepsShort("it");
    assert !StartsWith("g.gitit", ".git") && "g.gitit"[1..] == ".gitit";
    assert RemoveAll("g.gitit", ".git") == "git";
    assert !StartsWith(".g.gitit", ".git") by {
      assert ".g.gitit"[..4] == ".g.g";
    }
    assert ".g.gitit"[1..] == "g.gitit";
    assert RemoveAll(".g.gitit", ".git") == ".git";
    assert !StartsWith("a.g.gitit", ".git") && "a.g.gitit"[1..] == ".g.gitit";
  }

  /** `"octo.github.io".replace(".git", "")`: "octo" and "hub.io" are kept and ".git" between them is dropped. */
  lemma RemovesInnerGit()
    ensures RemoveAll("octo.github.io", ".git") == "octohub.io"
  {
    assert "octo.github.io" == "octo" + (".git" + ("hub" + ".io"));
    KeepsDotFree("octo", ".git" + ("hub" + ".io"));
    assert StartsWith(".git" + ("hub" + ".io"), ".git");
    assert (".git" + ("hub" + ".io"))[4..] == "hub" + ".io";
    KeepsDotFree("hub", ".io");
    KeepsShort(".io");
  }

  /** A prefix without a dot cannot start ".git", so the scan keeps it. */
  lemma {:induction false} KeepsDotFree(a: string, b: string)
    requires forall i :: 0 <= i < |a| ==> a[i] != '.'
    ensures RemoveAll(a + b, ".git") == a + RemoveAll(b, ".git")
    decreases |a|
  {
    if |a| > 0 {
      assert (a + b)[1..] == a[1..] + b;
      assert |a + b| >= 4 ==> (a + b)[..4][0] == a[0];
      assert !StartsWith(a + b, ".git");
      KeepsDotFree(a[1..], b);
      assert RemoveAll(a + b, ".git") == [a[0]] + (a[1..] + RemoveAll(b, ".git"));
      assert [a[0]] + (a[1..] + RemoveAll(b, ".git")) == a + RemoveAll(b, ".git");
    } else {
      assert a + b == b;
    }
  }

  /** A string shorter than ".git" is kept whole. */
  lemma {:induction false} KeepsShort(s: string)
    requires |s| < 4
    ensures RemoveAll(s, ".git") == s
    decreases |s|
  {
    if |s| > 0 {
      KeepsShort(s[1..]);
      assert s == [s[0]] + s[1..];
    }
  }

  /** The cleanup the comment describes: a ".git" suffix, if present, is removed. */
  function CleanRepoName(repo: string): (r: string)
    ensures EndsWith(repo, ".git") ==> repo == r + ".git"
    ensures !EndsWith(repo, ".git") ==> r == repo
  {
    if EndsWith(repo, ".git") then repo[..|repo| - 4] else repo
  }

  /**
   * Which cleanup of the matched name the create chain applies: `ReplaceAll`
   * is `replace('.git', '')` as the serializer writes it, `StripSuffix` the
   * corrected removal of one trailing ".git".
   */
  datatype NameCleanup = ReplaceAll | StripSuffix

  /** The repository name stored under `cleanup`. */
  function Cleaned(cleanup: NameCleanup, repo: string): string {
    match cleanup
    case ReplaceAll => RepoNameAsWritten(repo)
    case StripSuffix => CleanRepoName(repo)
  }

  // ---------------------------------------------------------------- create

  /** `RepositoryCreateSerializer`: the parser writes the owner and repository name into its context. */
  class CreateSerializer {
    var context: map<string, string>

    constructor ()
      ensures context == map[]
    {
      context := map[];
    }

    /**
     * `validate_github_repo_url(value)`: the URL itself is returned unchanged
     * on success; the name stored is the matched one under `cleanup`
     * (`ReplaceAll` as written).
     */
    method ValidateGithubRepoUrl(value: string, cleanup: NameCleanup) returns (r: Result<string, string>)
      modifies this
      ensures ParseUrl(value).None? ==> r == Failure(InvalidUrlMessage) && context == old(context)
      ensures ParseUrl(value).Some? ==>
                r == Success(value)
                && context == old(context)["owner" := ParseUrl(value).value.owner]
                                          ["repo_name" := Cleaned(cleanup, ParseUrl(value).value.repo)]
    {
      var patterns := [HttpsPattern, SshPattern];
      var i := 0;
      while i < |patterns|
        invariant 0 <= i <= |patterns|
        invariant context == old(context)
        invariant forall j :: 0 <= j < i ==> MatchPattern(patterns[j], value).None?
      {
        var m := MatchPattern(patterns[i], value);
        if m.Some? {
          assert i == 1 ==> MatchPattern(patterns[0], value).None?;
          assert ParseUrl(value) == Some(ParsedUrl(m.value.owner, m.value.repo));
          context := context["owner" := m.value.owner]["repo_name" := Cleaned(cleanup, m.value.repo)];
          return Success(value);
        }
        i := i + 1;
      }
      assert MatchPattern(patterns[0], value).None? && MatchPattern(patterns[1], value).None?;
      return Failure(InvalidUrlMessage);
    }
  }

  /**
   * `RepositoryCreateSerializer.validate`: `userUrls` are the URLs of the
   * user's repositories (unique per user, so their number is the count).
   * The limit is checked before duplicates.
   */
  function ValidateCreate(userUrls: set<string>, url: string): (r: Result<(), string>)
    ensures r.Success? <==> |userUrls| < MaxRepositoriesPerUser && url !in userUrls
    ensures |userUrls| >= MaxRepositoriesPerUser ==> r == Failure(LimitMessage())
    ensures |userUrls| < MaxRepositoriesPerUser && url in userUrls ==> r == Failure(DuplicateMessage)
  {
    if |userUrls| >= MaxRepositoriesPerUser then Failure(LimitMessage())
    else if url in userUrls then Failure(DuplicateMessage)
    else Success(())
  }

  /** Accepting a URL keeps the user within the limit and keeps the user's URLs distinct. */
  lemma ValidateCreateKeepsLimit(userUrls: set<string>, url: string)
    requires ValidateCreate(userUrls, url).Success?
    ensures |userUrls + {url}| <= MaxRepositoriesPerUser && |userUrls + {url}| == |userUrls| + 1
  {
  }

  // ---------------------------------------------------------------- update

  /** The fields a PATCH or PUT supplies; an absent field is `None`. */
  datatype UpdateAttrs = UpdateAttrs(
    selectedBranch: Option<Option<string>>, cronEnabled: Option<bool>, cronFrequency: Option<Option<string>>)

  /** `not cron_frequency`: missing, null or empty. */
  predicate NoFrequency(f: Option<string>) {
    f.None? || f.value == ""
  }

  /** `RepositoryUpdateSerializer.validate`: omitted fields fall back to the instance's values. */
  function ValidateUpdate(attrs: UpdateAttrs, cronEnabled: bool, cronFrequency: Option<string>): (r: Result<(), string>)
    ensures var enabled := if attrs.cronEnabled.Some? then attrs.cronEnabled.value else cronEnabled;
            var frequency := if attrs.cronFrequency.Some? then attrs.cronFrequency.value else cronFrequency;
            r.Success? <==> !(enabled && NoFrequency(frequency))
    ensures r.Failure? ==> r.error == CronFrequencyMessage
  {
    var enabled := if attrs.cronEnabled.Some? then attrs.cronEnabled.value else cronEnabled;
    var frequency := if attrs.cronFrequency.Some? then attrs.cronFrequency.value else cronFrequency;
    if enabled && NoFrequency(frequency) then Failure(CronFrequencyMessage) else Success(())
  }

  /** Enabled cron has a frequency. */
  predicate CronConfigured(repo: Repository)
    reads repo`cronEnabled, repo`cronFrequency
  {
    repo.cronEnabled ==> !NoFrequency(repo.cronFrequency)
  }

  /** `ModelSerializer.update`: each supplied field is assigned. */
  method ApplyUpdate(repo: Repository, attrs: UpdateAttrs)
    modifies repo`selectedBranch, repo`cronEnabled, repo`cronFrequency
    ensures repo.selectedBranch == if attrs.selectedBranch.Some? then attrs.selectedBranch.value else old(repo.selectedBranch)
    ensures repo.cronEnabled == if attrs.cronEnabled.Some? then attrs.cronEnabled.value else old(repo.cronEnabled)
    ensures repo.cronFrequency == if attrs.cronFrequency.Some? then attrs.cronFrequency.value else old(repo.cronFrequency)
    ensures ValidateUpdate(attrs, old(repo.cronEnabled), old(repo.cronFrequency)).Success? ==> CronConfigured(repo)
  {
    if attrs.selectedBranch.Some? {
      repo.selectedBranch := attrs.selectedBranch.value;
    }
    if attrs.cronEnabled.Some? {
      repo.cronEnabled := attrs.cronEnabled.value;
    }
    if attrs.cronFrequency.Some? {
      repo.cronFrequency := attrs.cronFrequency.value;
    }
  }
}
