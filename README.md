# commitsaga in Dafny

A model of the deterministic core of commitsaga, a Django and Next.js
application. The application imports a GitHub repository, groups its commits
into weekly or monthly periods, scores its contributors and asks an AI
service for summaries. The model covers these parts:

- **Analysis pipeline** (`tasks.dfy`). The Celery tasks `fetch_repository_data`,
  `analyze_repository_data` and `generate_ai_summaries` move a repository
  through the five-state `AnalysisStatus` lifecycle (pending, fetching,
  analyzing, completed, failed). Each task is a method on the `Repository`
  class.
- **Fetching** (`fetch.dfy`, `upsert.dfy`). The `_fetch_*` helpers read
  GitHub's listings, classify and truncate what they read, and write rows
  with `update_or_create`. Each table is a map keyed by its natural key, and
  the upsert is a map update whose idempotence and frame are proved.
- **Calendar bucketing** (`calendar.dfy`, `grouping.dfy`, `analysis.dfy`).
  Proleptic Gregorian dates and their ordinals. Monday-start weeks and
  calendar months that tile the commit date range. The rebuild that links
  every commit to exactly one non-empty group.
- **Scoring** (`scoring.dfy`, `contributor_scores.dfy`). `calculate_impact_score`
  computed exactly in twentieths of a point, and the fallback score used when
  no AI client exists. The per-contributor statistics come from the stored
  commits, pull requests and issues.
- **AI prompt text** (`prompts.dfy`, `text.dfy`). The truncation and
  placeholders of the prompt builders.
- **Repository endpoints** (`models.dfy`, `repo_serializers.dfy`,
  `repo_views.dfy`). The GitHub URL parser (the two regular expressions
  written out as a lazy-group matcher), the create and update validators,
  the create, reanalyze and export guards, and the state and detail filters.
- **Accounts** (`users_serializers.dfy`, `users_views.dfy`). The signup,
  login and profile-update rules, PAT validation and status, and the
  pagination window of `list_github_repos`.
- **Frontend session and forms** (`auth_client.dfy`, `auth_context.dfy`,
  `login_page.dfy`, `signup_page.dfy`, `settings_page.dfy`). The
  `auth_token` entry of local storage, the `AuthProvider` state, and the
  submit, validate and save handlers of the login, signup and settings
  pages.

GitHub, the Django ORM, Celery, the AI service, the clock and the browser's
HTTP client are not modelled as code. Their answers are parameters of the
methods that use them. A GitHub listing is the items it yields before
failing, plus a flag that says whether it fails.

`wrappers.dfy` holds the `Option` and `Result` datatypes.

## Model

| member | source | states |
|---|---|---|
| Models.StatusRoundTrip | backend/apps/repositories/models.py:9-14 | The five analysis statuses and their stored values convert both ways without loss. |
| Models.Repository.constructor | backend/apps/repositories/models.py:20-57 | A new repository is pending, has no error, has never been analysed, has cron disabled and has empty tables. |
| Models.Repository.Branch | backend/apps/repositories/models.py:69-72 | The branch is `selected_branch` when it is set and non-empty, and `default_branch` otherwise. |
| Models.SlashJoin | backend/apps/repositories/models.py:74-76 | `owner + "/" + repo_name`, split back exactly at the owner's length. |
| Models.SlashJoinInjective | backend/apps/repositories/models.py:74-76 | For slash-free owners, equal full names mean equal owners and equal repository names. |
| Models.Repository.ToString | backend/apps/repositories/models.py:66-67 | `__str__` is the full name. |
| Models.WriteContributor | backend/apps/repositories/tasks.py:125-136 | A contributor upsert overwrites the GitHub id, avatar, email and commit total. It keeps an existing row's other statistics and zeroes them for a new row. |
| Models.WriteContributorOverwrites | backend/apps/repositories/tasks.py:125-136 | A contributor write depends only on its defaults, so writing the same defaults twice gives the same row. |
| Models.ReplaceOverwrites | backend/apps/repositories/tasks.py:281-303 | An `update_or_create` whose defaults name every column is overwriting: a second write of the same key leaves what that write alone would leave. |
| Upsert.Get | backend/apps/repositories/tasks.py:125-136 | The lookup by natural key finds a row exactly when the key is in the table. |
| Upsert.BatchKeys | backend/apps/repositories/tasks.py:125-136 | The keys of a batch are exactly the keys of its entries. |
| Upsert.UpsertAll | backend/apps/repositories/tasks.py:185-207 | The loop of `update_or_create` calls equals applying the batch entry by entry. |
| Upsert.ApplyBatchKeys | backend/apps/repositories/tasks.py:125-136 | After the batch, the table holds exactly its old keys plus the batch's keys, one row per key. |
| Upsert.ApplyBatchOthers | backend/apps/repositories/tasks.py:367-384 | Rows whose key is not in the batch are unchanged. |
| Upsert.ApplyBatchLastWins | backend/apps/repositories/tasks.py:281-303 | For an overwriting write, a key's row is written from the last defaults the batch gives for it. |
| Upsert.ApplyBatchIdempotent | backend/apps/repositories/tasks.py:194-207 | Storing the same batch twice leaves the same table as storing it once. |
| Fetch.Enumerated | backend/apps/repositories/tasks.py:147-149 | Enumerating with a limit yields a prefix of the listing of length min(length, limit). It fails only when the listing fails before the limit is reached. |
| Fetch.Sliced | backend/apps/repositories/tasks.py:235-239 | Slicing `[:n]` yields a prefix of length min(length, n). It fails only when the listing fails before n items. |
| Fetch.ContributorBatch | backend/apps/repositories/tasks.py:125-136 | One contributor entry per contributor, keyed by login, in order. |
| Fetch.CollectContributors | backend/apps/repositories/tasks.py:104-136 | The contributor loop collects the whole listing, or nothing when the listing fails. |
| Fetch.FilesChanged | backend/apps/repositories/tasks.py:164-177 | At most 20 changed files, a prefix of the commit's files. A failure before the 20th file drops the list. Otherwise the result is exactly the first 20 files, or all of them when there are fewer. |
| Fetch.CommitDataOf | backend/apps/repositories/tasks.py:158-177 | A commit keeps its SHA. Its additions and deletions are the stats or 0. It has an author login exactly when GitHub gives an author. It has at most 20 files. |
| Fetch.CommitDataList | backend/apps/repositories/tasks.py:139-192 | One commit record per listed commit, in order. |
| Fetch.CollectCommits | backend/apps/repositories/tasks.py:139-192 | At most 500 commits are read. The loop collects exactly the records of the enumerated prefix. |
| Fetch.ContributorLink | backend/apps/repositories/tasks.py:185-192 | A commit links to the same-login contributor of the repository when one exists, and to no contributor otherwise. |
| Fetch.CommitBatch | backend/apps/repositories/tasks.py:194-207 | One row per commit, keyed by SHA, in order. |
| Fetch.PullRequestState | backend/apps/repositories/tasks.py:224-230 | Merged if merged; otherwise closed exactly when GitHub says "closed"; otherwise open. |
| Fetch.CommentOf | backend/apps/repositories/tasks.py:233-244 | A comment body is cut to a prefix of at most 1000 characters, and the author is the login or "unknown". |
| Fetch.Discussion | backend/apps/repositories/tasks.py:233-244 | At most 20 comments, the first ones, each converted in order. |
| Fetch.PullRequestEntry | backend/apps/repositories/tasks.py:247-275 | A pull request is keyed by its number, its state is classified, and it keeps at most 50 of its commit SHAs and 20 comments. |
| Fetch.PullRequestBatch | backend/apps/repositories/tasks.py:281-303 | One row per pull request, in order. |
| Fetch.CollectPullRequests | backend/apps/repositories/tasks.py:210-303 | At most 100 pull requests are read, and exactly the enumerated ones are collected. |
| Fetch.IssueStateOf | backend/apps/repositories/tasks.py:324-329 | An issue is closed exactly when GitHub's state is "closed". |
| Fetch.IssueEntry | backend/apps/repositories/tasks.py:331-361 | An issue is keyed by its number with its classified state and at most 20 comments. |
| Fetch.CollectIssues | backend/apps/repositories/tasks.py:306-361 | The issue loop collects the issue entries of the first 100 listing items. |
| Fetch.IssueSlots | backend/apps/repositories/tasks.py:320-322 | Pull requests in the issue listing are skipped: the stored issues plus the skipped pull requests account for every item read, and each stored issue comes from a non-PR item. |
| Fetch.IssueBound | backend/apps/repositories/tasks.py:316-322 | Skipped pull requests still use up issue slots, so at most 100 issues are stored. |
| Fetch.FetchContributors | backend/apps/repositories/tasks.py:104-136 | The contributor table becomes the old table upserted with the listing, or stays unchanged when the listing fails. |
| Fetch.FetchCommits | backend/apps/repositories/tasks.py:139-207 | The commit table becomes the old table upserted with the enumerated commits, linked to contributors. A failed listing leaves it unchanged. |
| Fetch.FetchPullRequests | backend/apps/repositories/tasks.py:210-303 | The pull request table becomes the old table upserted with the enumerated pull requests. A failed listing leaves it unchanged. |
| Fetch.FetchIssues | backend/apps/repositories/tasks.py:306-384 | The issue table becomes the old table upserted with the enumerated non-PR issues. A failed listing leaves it unchanged. |
| Fetch.FetchAll | backend/apps/repositories/tasks.py:63-84 | The four fetch helpers, in order, produce the tables of the specification function `AfterFetch`. |
| Fetch.FetchIdempotent | backend/apps/repositories/tasks.py:104-384 | Fetching the same remote data twice leaves the same tables as fetching it once. |
| Tasks.RemoteMetadata | backend/apps/repositories/tasks.py:56-61 | The stored description is GitHub's description, or "" when GitHub has none. |
| Tasks.FetchRepositoryData | backend/apps/repositories/tasks.py:15-101 | With no token, the task fails with the token message and changes nothing else. A GitHub error fails the task with "GitHub API error: ..." and is retried only on a rate limit. On success the status is fetching, the error is cleared, the metadata is stored and the tables are fetched. |
| Tasks.AnalyzeRepositoryData | backend/apps/repositories/tasks.py:387-486 | No commits: the status becomes completed and commits and groups are untouched. Otherwise the status is analyzing, and the commits become those that survive the group deletion: under the cascade as written, only the ones no old group held. Every survivor is then in exactly one non-empty group, and the groups are weeks or months as requested. Under the cascade, a repository whose commits were all grouped ends with no commits and no groups. |
| Tasks.GroupCommits | backend/apps/repositories/tasks.py:418-469 | The buckets are taken from every stored commit, the old groups are deleted under the chosen deletion, and every surviving commit gets exactly one group of the requested kind. |
| Tasks.Survivors | backend/apps/repositories/tasks.py:446 | Deleting the groups keeps a subset of the commits, unchanged. Unlinking keeps them all. The cascade keeps exactly the commits no group held. |
| Tasks.NoCommitsNoGroups | backend/apps/repositories/tasks.py:449-469 | Regrouping no commits creates no group, because an empty bucket is skipped. |
| Tasks.BucketsFor | backend/apps/repositories/tasks.py:440-443 | The weekly or monthly buckets are contiguous, non-empty, cover the commit date range, and are weeks or months as requested. |
| Tasks.Regroup | backend/apps/repositories/tasks.py:446-469 | The groups are rebuilt from the buckets: empty buckets make no group, and every commit is linked to exactly one group (links cleared, not cascaded). |
| Tasks.CascadeDeleteGroups | backend/apps/repositories/tasks.py:446 | As written, deleting the old groups also deletes every commit linked to one of them. |
| Tasks.CascadeLosesAnalysedCommits | backend/apps/repositories/models.py:167-173 | After one analysis, a re-analysis's group delete removes every commit. |
| Tasks.GenerateAiSummaries | backend/apps/repositories/tasks.py:528-673 | A failure in the group summaries sets failed with "AI summary error: ..." and keeps the scores. Otherwise every contributor is rescored. A failure in the overall summary, which runs only with an AI client and commit groups, then sets failed with the rescored table kept. Without a failure the status becomes completed and `last_analyzed_at` is stamped. |
| Tasks.RunAnalysis | backend/apps/repositories/tasks.py:15-673 | The chained tasks end completed or failed unless a retry is pending. The error is set exactly when the status is failed. A completed repository with commits has every remaining commit grouped, under either deletion. |
| Calendar.DaysInMonth | backend/apps/repositories/tasks.py:515 | `monthrange` gives 28 to 31 days, and February has 29 exactly in a Gregorian leap year. |
| Calendar.WeekdayOf | backend/apps/repositories/tasks.py:494 | The weekday of an ordinal is 0 (Monday) to 6. |
| Calendar.FirstOfMonth | backend/apps/repositories/tasks.py:511 | `replace(day=1)` keeps the year and month and is a valid date. |
| Calendar.MonthStart | backend/apps/repositories/tasks.py:519-523 | The first day of a month index is valid and has that index, so December rolls over to January of the next year. |
| Calendar.MonthEnd | backend/apps/repositories/tasks.py:515-516 | A month's last day is valid and is `monthrange`'s last day. |
| Calendar.OrdinalMonotone | backend/apps/repositories/tasks.py:496 | Date order agrees with ordinal order, and equal ordinals mean equal dates. |
| Calendar.NextMonthStartsNextDay | backend/apps/repositories/tasks.py:519-523 | The next month starts the day after this month ends. |
| Calendar.MonthOfDate | backend/apps/repositories/tasks.py:511-516 | A date's month starts on day 1 of that month and ends on its last day. |
| Calendar.FirstOfMonthLe | backend/apps/repositories/tasks.py:513 | A month start is on or before a date exactly when its month index is at most the date's. |
| Calendar.InMonthIffMonthIndex | backend/apps/repositories/tasks.py:510-525 | A date lies within a month's span exactly when it has that month's index. |
| Grouping.ContiguousOrdered | backend/apps/repositories/tasks.py:496-499 | In a contiguous sequence of buckets, every earlier bucket ends before every later bucket starts. |
| Grouping.ContiguousDisjoint | backend/apps/repositories/tasks.py:496-499 | No day lies in two buckets of a contiguous sequence. |
| Grouping.ContiguousCovers | backend/apps/repositories/tasks.py:496-499 | Every day from the first bucket's start to the last bucket's end lies in some bucket. |
| Grouping.TilingExactlyOnce | backend/apps/repositories/tasks.py:489-525 | Every day of a contiguous tiling's span lies in exactly one bucket. |
| Grouping.MondayOnOrBefore | backend/apps/repositories/tasks.py:494 | `start - weekday` is a Monday no more than six days before the start. |
| Grouping.WeekCount | backend/apps/repositories/tasks.py:496-499 | The loop stops at the first Monday after the end: the last week starts on or before the end and ends on or after it. |
| Grouping.CreateWeeklyGroups | backend/apps/repositories/tasks.py:489-501 | The loop yields exactly the weeks `[m + 7i, m + 7i + 6]` from the Monday on or before the start, as many as `WeekCount` says. |
| Grouping.WeeksTile | backend/apps/repositories/tasks.py:493-501 | The weeks are contiguous, start on Mondays, last seven days, begin at that Monday and cover through the end date. |
| Grouping.CreateMonthlyGroups | backend/apps/repositories/tasks.py:504-525 | The loop yields exactly the consecutive calendar months from the start's month, as many as reach the end date. |
| Grouping.AsBuckets | backend/apps/repositories/tasks.py:504-525 | A month group becomes the ordinal bucket from its first to its last day. |
| Grouping.MonthBucketsContiguous | backend/apps/repositories/tasks.py:519-523 | Consecutive months are non-empty and each starts the day after the previous ends. |
| Grouping.MonthsTile | backend/apps/repositories/tasks.py:504-525 | The month groups are contiguous, start on day 1 of the start's month and cover through the end date. There is a group exactly when that day is on or before the end. |
| Grouping.FirstMonthCoversStart | backend/apps/repositories/tasks.py:511 | The first month starts on day 1 of the start's month, no later than the start. |
| Grouping.LastMonthCoversEnd | backend/apps/repositories/tasks.py:513 | The last month ends on or after the end date. |
| Analysis.Members | backend/apps/repositories/tasks.py:451-455 | A bucket's commits are exactly the commits dated within it. |
| Analysis.Rebuild | backend/apps/repositories/tasks.py:449-469 | The rebuild makes at most one group per bucket. |
| Analysis.RebuildRows | backend/apps/repositories/tasks.py:449-469 | Every created group spans one bucket, has the requested type and has a positive commit count equal to that bucket's commits. |
| Analysis.RebuildLinksSound | backend/apps/repositories/tasks.py:462-467 | Every linked commit is linked to an existing group whose span contains its date. |
| Analysis.RebuildLinksComplete | backend/apps/repositories/tasks.py:462-467 | A commit dated within any bucket gets linked. |
| Analysis.LinkCommits | backend/apps/repositories/tasks.py:449-469 | The loop over buckets produces exactly the groups and links of `Rebuild`. |
| Analysis.RebuildWithinSpan | backend/apps/repositories/tasks.py:449-469 | Every group lies within the span of the buckets. |
| Analysis.RebuildOrdered | backend/apps/repositories/tasks.py:449-469 | The groups are created in date order and do not overlap. |
| Analysis.LinkedTo | backend/apps/repositories/tasks.py:462-467 | The commits linked to a group are exactly those whose link names it. |
| Analysis.LinkedCount | backend/apps/repositories/tasks.py:457-467 | A group's linked commits are exactly the commits dated within its span, and its `commit_count` is their number. |
| Analysis.RebuildCoversAll | backend/apps/repositories/tasks.py:446-469 | When the buckets tile the commit dates, every commit is linked to exactly one non-empty group with the right count. |
| Analysis.RebuildLinksEvery | backend/apps/repositories/tasks.py:462-467 | When the buckets cover the commit dates, every commit gets linked. |
| Analysis.RebuildCounts | backend/apps/repositories/tasks.py:457-461 | Every group has the requested type, and its count is its number of linked commits and is positive. |
| Analysis.WeeksCoverRange | backend/apps/repositories/tasks.py:440-441 | The weekly buckets of a non-empty range are contiguous Monday-start weeks covering it. |
| Analysis.MonthsNonEmpty | backend/apps/repositories/tasks.py:504-525 | A non-empty date range has at least one month group. |
| Analysis.MonthGroupsAreMonths | backend/apps/repositories/tasks.py:515-516 | Every monthly group runs from day 1 to the last day of one calendar month. |
| Analysis.MonthsCoverRange | backend/apps/repositories/tasks.py:442-443 | The monthly buckets of a non-empty range are contiguous calendar months covering it. |
| Analysis.DateRange | backend/apps/repositories/tasks.py:418-437 | The range runs from the earliest to the latest commit date. Both ends are actual commit dates and every commit lies between them. |
| Scoring.CappedTwentieths | backend/apps/ai/client.py:264-265 | The two capped terms together are at most 750 points (15000 twentieths). |
| Scoring.CappedTermsExact | backend/apps/ai/client.py:264-265 | `min(additions*0.1, 500) + min(deletions*0.05, 250)`, computed exactly in reals, equals the twentieths value. |
| Scoring.FloorTwentieths | backend/apps/ai/client.py:271 | Truncating n/20 is integer division for non-negative n. |
| Scoring.ScoreFromTwentieths | backend/apps/ai/client.py:262-271 | The exact real-valued score truncated to an integer equals the integer computation in twentieths. |
| Scoring.CalculateImpactScore | backend/apps/ai/client.py:240-271 | The successive `+=` updates yield the truncated weighted sum. |
| Scoring.ImpactScoreBounds | backend/apps/ai/client.py:262-271 | The score lies between the integer-weighted terms and that sum plus 750, and is 0 for all-zero inputs. |
| Scoring.ImpactScoreCaps | backend/apps/ai/client.py:264-265 | Additions add at most 500 and deletions at most 250, and neither counts beyond 5000 lines. |
| Scoring.ImpactScoreMonotone | backend/apps/ai/client.py:262-271 | The score never decreases when any argument grows. |
| Scoring.FallbackNotAbove | backend/apps/repositories/tasks.py:728-732 | The AI-less fallback `commits*10 + merged*50 + opened*20` never exceeds the impact score, and equals it without issues or line changes. |
| ContributorScores.AggregateCommits | backend/apps/repositories/tasks.py:684-688 | The commit count, additions and deletions are those of exactly the contributor's commits. |
| ContributorScores.ScoreContributor | backend/apps/repositories/tasks.py:691-732 | A contributor row gets its statistics from the stored tables and the AI score, or the fallback score when no AI client exists. |
| ContributorScores.RescoredTable | backend/apps/repositories/tasks.py:676-738 | The rescored table has the same contributors, each with its recomputed row. |
| ContributorScores.RescoreAll | backend/apps/repositories/tasks.py:676-738 | The loop over contributors rescores every row and adds or removes none. |
| ContributorScores.CalculateContributorScores | backend/apps/repositories/tasks.py:676-738 | The repository's contributor table is rescored in place. |
| ContributorScores.CountsBounded | backend/apps/repositories/tasks.py:696-706 | A contributor has no more merged pull requests than opened ones, and no more closed issues than opened ones. |
| ContributorScores.Attributed | backend/apps/repositories/tasks.py:684-688 | The commits attributed to a set of logins are stored commits. |
| ContributorScores.AttributedSplit | backend/apps/repositories/tasks.py:684-688 | One login's commits are disjoint from the other logins' commits. |
| ContributorScores.CommitsCountedOnce | backend/apps/repositories/tasks.py:684-688 | The contributors' commit counts add up to the number of attributed commits, so no commit is counted twice. |
| Prompts.CommitLine | backend/apps/ai/client.py:81-86 | A commit line is "- ", the first 7 characters of the SHA, ": ", the first 200 characters of the message, then " (by author)". So it is at most 219 characters plus the author. |
| Prompts.CommitLines | backend/apps/ai/client.py:81-86 | At most 50 commit lines, one per leading commit, in order. |
| Prompts.PullRequestLine | backend/apps/ai/client.py:89-98 | A pull request line starts with `- PR #`. |
| Prompts.PullRequestLines | backend/apps/ai/client.py:89-98 | At most 20 pull request lines, in order. |
| Prompts.IssueLine | backend/apps/ai/client.py:101-110 | An issue line starts with `- Issue #`. |
| Prompts.IssueLines | backend/apps/ai/client.py:101-110 | At most 20 issue lines, in order. |
| Prompts.PullRequestsPlaceholder | backend/apps/ai/client.py:96-97 | The pull request text is the fixed placeholder exactly when the list is empty. |
| Prompts.IssuesPlaceholder | backend/apps/ai/client.py:108-109 | The issue text is the fixed placeholder exactly when the list is empty. |
| Prompts.PeriodBlocks | backend/apps/ai/client.py:186-193 | At most 12 period blocks, each `### period` followed by its summary. |
| Prompts.TopContributorLines | backend/apps/ai/client.py:196-201 | At most 10 contributor lines, each with the username, commit count and impact score. |
| Text.Take | backend/apps/ai/client.py:84 | A slice `[:n]` is the prefix of length min(n, length). |
| Text.NatToString | backend/apps/ai/client.py:199 | A number's decimal text is non-empty and all digits. |
| Text.Join | backend/apps/ai/client.py:81-86 | Joining one part gives that part, and joining none gives "". |
| Text.JoinStartsWith | backend/apps/ai/client.py:81-86 | When every part starts with a prefix, the joined text does too. |
| Text.AsciiLower | backend/apps/repositories/views.py:211 | Lowercasing maps each character and keeps the length. |
| Text.RemoveAll | backend/apps/repositories/serializers.py:370 | `str.replace(pat, '')` never lengthens the string. |
| Text.RemoveAllAbsent | backend/apps/repositories/serializers.py:370 | Removing an absent pattern changes nothing. |
| Text.TrimStart | frontend/src/app/settings/page.tsx:61 | Trimming the start drops exactly the leading whitespace. |
| Text.TrimEnd | frontend/src/app/settings/page.tsx:61 | Trimming the end drops exactly the trailing whitespace. |
| Text.TrimEmptyIffBlank | frontend/src/app/settings/page.tsx:61 | `trim()` is empty exactly when the string is all whitespace. |
| Text.NonBlankKeepsCharacter | frontend/src/app/settings/page.tsx:61 | A string with a non-whitespace character does not trim to empty. |
| RepositorySerializers.AfterPrefix | backend/apps/repositories/serializers.py:360-363 | The URL either starts with one of the pattern's prefixes and splits after it, or starts with none of them. |
| RepositorySerializers.SplitAtSlash | backend/apps/repositories/serializers.py:361 | `([^/]+)/` splits at the first slash with a slash-free owner. |
| RepositorySerializers.LazyGroup | backend/apps/repositories/serializers.py:361 | The lazy group `([^/]+?)` takes the shortest slash-free prefix whose rest is an allowed tail. |
| RepositorySerializers.RepoGroup | backend/apps/repositories/serializers.py:360-363 | The repository group is non-empty and slash-free, is followed by an allowed tail, and no shorter group would do. |
| RepositorySerializers.MatchPattern | backend/apps/repositories/serializers.py:365-367 | A match has the pattern's shape and the shortest repository group. |
| RepositorySerializers.MatchComplete | backend/apps/repositories/serializers.py:365-367 | Every way the URL fits a pattern is found. The shortest one is the match. |
| RepositorySerializers.ParseUrlSound | backend/apps/repositories/serializers.py:365-373 | Every accepted URL fits one of the two patterns with the shortest repository group, and the owner and repository are that fit's groups. |
| RepositorySerializers.ParseUrlRoundTrip | backend/apps/repositories/serializers.py:360-363 | `https://github.com/o/r`, with `.git` or a trailing `/`, and `git@github.com:o/r.git` parse back to o and r. |
| RepositorySerializers.RoundTripHttps | backend/apps/repositories/serializers.py:361 | Both `http` and `https` URLs, with any allowed tail, parse back to their owner and repository. |
| RepositorySerializers.RoundTripSsh | backend/apps/repositories/serializers.py:362 | An SSH URL parses back to its owner and repository. |
| RepositorySerializers.RepoNameAsWritten | backend/apps/repositories/serializers.py:370 | As written, the name is cleaned with `replace('.git', '')`, which never lengthens it. |
| RepositorySerializers.RepoNameAsWrittenMangles | backend/apps/repositories/serializers.py:370 | `https://github.com/octo/octo.github.io` is accepted and its name becomes "octohub.io", while the corrected name stays "octo.github.io". |
| RepositorySerializers.RepoNameAsWrittenCanKeepGit | backend/apps/repositories/serializers.py:369-370 | The cleanup as written can leave ".git" in the name. `https://github.com/o/a.g.gitit` is accepted with "a.g.gitit", and one `replace` pass turns that into "a.git". |
| RepositorySerializers.RemovesInnerGit | backend/apps/repositories/serializers.py:370 | `replace` also removes a ".git" in the middle of a name. |
| RepositorySerializers.CleanRepoName | backend/apps/repositories/serializers.py:369-370 | The corrected cleanup strips one trailing ".git" and leaves any other name unchanged. |
| RepositorySerializers.CreateSerializer.constructor | backend/apps/repositories/serializers.py:351-355 | A new serializer has an empty context. |
| RepositorySerializers.CreateSerializer.ValidateGithubRepoUrl | backend/apps/repositories/serializers.py:357-377 | An unparsable URL is rejected with the fixed message and the context is unchanged. Otherwise the URL is returned unchanged and the context gets the owner and the name under the given cleanup: `replace('.git', '')` as written, or the corrected suffix strip. |
| RepositorySerializers.ValidateCreate | backend/apps/repositories/serializers.py:379-397 | Creation is allowed exactly when the user has fewer than 2 repositories and not this URL. The limit is checked before the duplicate. |
| RepositorySerializers.ValidateCreateKeepsLimit | backend/apps/repositories/serializers.py:383-395 | After an accepted create, the user has at most 2 repositories, one more than before. |
| RepositorySerializers.ValidateUpdate | backend/apps/repositories/serializers.py:407-417 | An update is rejected exactly when the resulting cron is enabled with a missing or empty frequency. Omitted fields fall back to the current values. |
| RepositorySerializers.ApplyUpdate | backend/apps/repositories/serializers.py:400-417 | The supplied fields overwrite the repository. A validated update leaves cron configured consistently. |
| RepositoryViews.GithubRefusal | backend/apps/repositories/views.py:109-118 | A GitHub 404 answers 404, and any other GitHub error answers 400 with "GitHub API error: ...". |
| RepositoryViews.CreateGuard | backend/apps/repositories/views.py:65-118 | Creation passes exactly when the URL parses, the limits pass, a token exists, GitHub finds the owner and the name under the serializer's cleanup, and any requested branch exists. Otherwise it answers 400 or 404. |
| RepositoryViews.CreateAsWrittenAsksForWrongRepository | backend/apps/repositories/views.py:88-118 | With the cleanup as written, `https://github.com/octo/octo.github.io` makes GitHub look up "octo/octohub.io". Where that repository does not exist, the create answers 404 although the named repository exists. |
| RepositoryViews.CreateCorrectedFindsRepository | backend/apps/repositories/views.py:88-118 | With the corrected cleanup, the same request looks up "octo/octo.github.io" and passes with that owner and name. |
| RepositoryViews.PagesSiteAsWrittenName | backend/apps/repositories/views.py:90 | The full name looked up for owner "octo" and repository "octo.github.io" under the cleanup as written is "octo/octohub.io". |
| RepositoryViews.CreateTokenBeforeGithub | backend/apps/repositories/views.py:81-86 | Without a token the answer is 400, whatever GitHub would say, so GitHub is not consulted. |
| RepositoryViews.CreateGithubErrors | backend/apps/repositories/views.py:109-118 | A failing GitHub lookup answers 404 for not found and 400 otherwise. |
| RepositoryViews.CreateBranchCheck | backend/apps/repositories/views.py:99-107 | An unknown requested branch answers 400, and without a requested branch the guard passes. |
| RepositoryViews.CreateRepository | backend/apps/repositories/views.py:65-145 | GitHub is asked only after the token check, for the name the serializer stored. A created repository is pending, with no error and GitHub's metadata, and a blank branch is stored as none. |
| RepositoryViews.Reanalyze | backend/apps/repositories/views.py:157-186 | While fetching or analyzing: 400 and nothing changes. Otherwise: pending, error cleared, task queued. |
| RepositoryViews.ReanalyzeThenRun | backend/apps/repositories/views.py:157-186 | An accepted re-analysis runs the pipeline to a settled status unless a retry is pending. A refused one changes no status. |
| RepositoryViews.CreateExport | backend/apps/repositories/views.py:361-398 | The export is accepted exactly when the status is completed and the body is valid. The status is checked first. |
| RepositoryViews.UseDetail | backend/apps/repositories/views.py:211 | The detailed serializer is used exactly when the lowercased `detail` parameter is "true". |
| RepositoryViews.FilterPullRequests | backend/apps/repositories/views.py:229-232 | With an empty or missing state every pull request is listed. Otherwise exactly those with that state are, unchanged. |
| RepositoryViews.FilterIssues | backend/apps/repositories/views.py:253-256 | With an empty or missing state every issue is listed. Otherwise exactly those with that state are, unchanged. |
| RepositoryViews.PullRequestFiltersPartition | backend/apps/repositories/views.py:229-232 | The open, closed and merged filters partition the pull requests, and any other state lists none. |
| RepositoryViews.IssueFiltersPartition | backend/apps/repositories/views.py:253-256 | The open and closed filters partition the issues, and any other state lists none. |
| UserSerializers.User.constructor | backend/apps/users/serializers.py:35-42 | A new user is active and has no token or GitHub username. |
| UserSerializers.User.SetGithubToken | backend/apps/users/models.py:30-42 | An empty token clears the column, and any other is stored sealed. |
| UserSerializers.User.GetGithubToken | backend/apps/users/models.py:44-63 | The token is returned exactly when one is stored, and it is the one sealed. |
| UserSerializers.SignupValidate | backend/apps/users/serializers.py:30-33 | Signup passes exactly when the passwords agree. Otherwise the error is under `password`. |
| UserSerializers.SignupCreate | backend/apps/users/serializers.py:35-42 | The user is created from email, username and password alone. |
| UserSerializers.LoginValidate | backend/apps/users/serializers.py:51-70 | Login succeeds exactly for a known email with its password and an active account. Missing credentials get the fixed message. |
| UserSerializers.LoginDoesNotRevealAccounts | backend/apps/users/serializers.py:56-62 | An unknown email and a wrong password get the identical "Invalid credentials". |
| UserSerializers.LoginDisabledAfterPassword | backend/apps/users/serializers.py:61-65 | "User account is disabled" is answered only after the password matched. |
| UserSerializers.ProfileUpdate | backend/apps/users/serializers.py:82-97 | Supplied fields overwrite. An omitted token is kept, "" clears it, and any other is stored and reads back. |
| UserViews.ValidatePat | backend/apps/users/views.py:114-153 | The token is valid, with the username, exactly when the GitHub lookup succeeds. A GitHub error gives 400 and any other error 500. |
| UserViews.ValidatePatStatus | backend/apps/users/views.py:128-153 | The status is 200, 400 or 500 exactly for success, a GitHub error or another error. |
| UserViews.CheckPatStatus | backend/apps/users/views.py:156-168 | `has_token` and "GitHub PAT configured" hold exactly when a token is stored. |
| UserViews.ListError | backend/apps/users/views.py:243-251 | A GitHub error answers 400 and any other error 500. |
| UserViews.PerPage | backend/apps/users/views.py:192-193 | `per_page` is `min(requested, 100)`: a request up to 100 is kept, a larger one becomes 100, and the default is 30. |
| UserViews.Clamp | backend/apps/users/views.py:205-216 | An index clamped into `[0, n]`, unchanged when already inside. |
| UserViews.Window | backend/apps/users/views.py:205-216 | The enumeration keeps exactly the items at indices in `[start, end)`. |
| UserViews.ListGithubRepos | backend/apps/users/views.py:171-251 | No token: 400 before any GitHub call. Otherwise the page holds the window `[(page-1)*per_page, page*per_page)`, with `has_next` meaning the end is below the total and `has_previous` meaning page > 1. A listing failure before the window is complete is reported as an error. |
| UserViews.CollectWindow | backend/apps/users/views.py:204-232 | The loop with `continue` and `break` collects exactly the window. |
| UserViews.WindowIsPage | backend/apps/users/views.py:205-216 | A page holds at most `per_page` items, the listing's items from `(page-1)*per_page` on, in order. |
| UserViews.WindowEmptyBelowOne | backend/apps/users/views.py:192-216 | A page number or page size below 1 gives an empty page. |
| UserViews.PagesConcatenate | backend/apps/users/views.py:205-216 | Pages 1 to k, concatenated, are the listing's first k·per_page items. |
| UserViews.HasNextIffMore | backend/apps/users/views.py:239 | There is a next page exactly when it would hold at least one item. |
| AuthClient.FirstOf | frontend/src/app/signup/page.tsx:59-72 | `data?.[field]?.[0]` is present only when non-empty, and is the first message of the field. |
| AuthClient.FirstMessage | frontend/src/app/login/page.tsx:46-51 | The `\|\|` chain yields the first present field's message in order, or the fallback when none is present. |
| AuthClient.TokenStore.constructor | frontend/src/lib/auth.ts:112-118 | The store holds the given entry. |
| AuthClient.TokenStore.GetToken | frontend/src/lib/auth.ts:112-118 | `getToken` is exactly the stored value, and `isAuthenticated` holds exactly for a non-empty one. |
| AuthClient.TokenStore.Remove | frontend/src/lib/auth.ts:65-68 | Removing the entry leaves the store unauthenticated. |
| AuthClient.TokenStore.KeepToken | frontend/src/lib/auth.ts:49-63 | Only a truthy token is stored. |
| AuthClient.TokenStore.Signup | frontend/src/lib/auth.ts:49-55 | The response is returned unchanged, and only a successful response with a truthy token is stored. |
| AuthClient.TokenStore.Login | frontend/src/lib/auth.ts:57-63 | The response is returned unchanged, and only a successful response with a truthy token is stored. |
| AuthClient.TokenStore.Logout | frontend/src/lib/auth.ts:65-68 | The token is removed only after the POST resolves. A rejected POST keeps it. |
| AuthClient.RepoQueryOf | frontend/src/lib/auth.ts:95-110 | Without options the query is page 1, per page 30, type "all" and sort "updated". With options, each field is the given value when it is truthy and that default otherwise, so page 0 is sent as 1. |
| AuthContext.AuthProvider.constructor | frontend/src/contexts/AuthContext.tsx:21-22 | The provider starts with no user and loading. |
| AuthContext.AuthProvider.LoadUser | frontend/src/contexts/AuthContext.tsx:29-41 | The profile is fetched only with a stored token. A failure removes the token and leaves no user. Loading is false on every path. |
| AuthContext.AuthProvider.Login | frontend/src/contexts/AuthContext.tsx:43-47 | Success sets the user and goes to /dashboard. Failure is rethrown and changes nothing. |
| AuthContext.AuthProvider.Signup | frontend/src/contexts/AuthContext.tsx:49-53 | Success sets the user and goes to /dashboard. Failure is rethrown and changes nothing. |
| AuthContext.AuthProvider.Logout | frontend/src/contexts/AuthContext.tsx:55-65 | Whatever the server answers, the session ends with no user, no token and the /login route. |
| AuthContext.AuthProvider.UpdateUser | frontend/src/contexts/AuthContext.tsx:67-70 | The user becomes the update's answer. A rejection is rethrown and keeps the user. |
| AuthContext.AuthProvider.RefreshUser | frontend/src/contexts/AuthContext.tsx:72-77 | Without a token nothing happens. Otherwise the profile replaces the user, or the rejection is rethrown. |
| AuthContext.UseAuth | frontend/src/contexts/AuthContext.tsx:86-91 | Inside a provider it is the provider's value, and outside it throws the fixed message. |
| AuthContext.AuthPageScreen | frontend/src/app/login/page.tsx:57-69 | A spinner exactly while loading, and the form exactly when loaded with no user. |
| AuthContext.NothingIffRedirect | frontend/src/app/login/page.tsx:32-36 | The page renders nothing exactly when it redirects to the dashboard. |
| AuthContext.LoginThenRedirect | frontend/src/app/login/page.tsx:32-55 | After loading and a successful login the page redirects and renders nothing. A failed login leaves the route. |
| LoginPage.LoginErrorPrecedence | frontend/src/app/login/page.tsx:45-51 | The first present of `email[0]`, `password[0]` and `non_field_errors[0]` is shown, else the fixed fallback. |
| LoginPage.LoginForm.constructor | frontend/src/app/login/page.tsx:24-27 | The form starts empty, with no error and not loading. |
| LoginPage.LoginForm.HandleSubmit | frontend/src/app/login/page.tsx:38-55 | Loading is set while login runs and false afterwards on every path. A rejection shows its message and keeps the user. |
| SignupPage.SignupErrorPrecedence | frontend/src/app/signup/page.tsx:59-72 | The first present of `email[0]`, `username[0]`, `password[0]`, `password2[0]` and `non_field_errors[0]` is shown, else the fixed fallback. |
| SignupPage.PasswordRequirements | frontend/src/app/signup/page.tsx:92-98 | The checklist has the two requirements, in order. |
| SignupPage.ClientCheck | frontend/src/app/signup/page.tsx:45-53 | The client checks pass exactly for equal passwords of at least 8 characters. A mismatch is reported before the length. |
| SignupPage.RequirementsMatchChecks | frontend/src/app/signup/page.tsx:45-53 | The checklist is fully ticked exactly when the submit handler's checks pass. |
| SignupPage.SignupForm.constructor | frontend/src/app/signup/page.tsx:25-30 | The form starts empty, with no error and not loading. |
| SignupPage.SignupForm.HandleSubmit | frontend/src/app/signup/page.tsx:41-76 | Signup is called exactly when the client checks pass. A failed check shows its message and leaves loading alone. Loading is false after a call, and a rejection shows the first field error. |
| SettingsPage.MessageOr | frontend/src/app/settings/page.tsx:86 | `error.response?.data?.message \|\| fallback`. |
| SettingsPage.TokenBlank | frontend/src/app/settings/page.tsx:61 | `!githubToken.trim()` holds exactly for an all-whitespace token. |
| SettingsPage.AnswerShown | frontend/src/app/settings/page.tsx:73-87 | A valid answer shows success with the username and fills it in. An invalid answer shows the server message. A thrown error shows its message or "Failed to validate token". |
| SettingsPage.SettingsForm.constructor | frontend/src/app/settings/page.tsx:32-46 | The page starts with empty inputs, idle validation and nothing in progress. |
| SettingsPage.SettingsForm.SyncUser | frontend/src/app/settings/page.tsx:54-58 | A loaded user fills the GitHub username input. |
| SettingsPage.SettingsForm.EditToken | frontend/src/app/settings/page.tsx:263-266 | Editing the token resets validation to idle with an empty message. |
| SettingsPage.SettingsForm.ValidateDisabled | frontend/src/app/settings/page.tsx:281 | The validate button is disabled exactly while validating or when the token is blank. |
| SettingsPage.SettingsForm.HandleValidateToken | frontend/src/app/settings/page.tsx:60-91 | A blank token shows "Please enter a GitHub token" and makes no call. Otherwise validating is set during the call and false after, and the answer is shown. |
| SettingsPage.SettingsForm.Request | frontend/src/app/settings/page.tsx:69-90 | The request part of the handler shows the answer and ends with validating false. |
| SettingsPage.SettingsForm.HandleSave | frontend/src/app/settings/page.tsx:93-113 | The token is sent only when non-empty. Success shows the saved message and clears the input. Failure shows the error and keeps it. Saving is false afterwards. |

## Left out

- GitHub access through PyGithub, Celery dispatch and retry, and the Django ORM and its transactions are not modelled. Their results are method parameters: GitHub listings, a rate-limit flag, and tables held as maps keyed by natural key.
- Uniqueness constraints (`unique_together` at backend/apps/repositories/models.py:63, 112, 204, 264, 325) are not checked separately. They hold by construction, because every table is a map keyed by its natural key.
- RepositorySerializers.RepoNameAsWritten: the stored name is not promised to be free of ".git", although the comment at backend/apps/repositories/serializers.py:369 says ".git" is removed. One `replace` pass can join the text around a removed ".git" into a new one, as `RepositorySerializers.RepoNameAsWrittenCanKeepGit` shows.
- Tasks.FetchRepositoryData, Tasks.AnalyzeRepositoryData: the generic `except Exception` handlers (backend/apps/repositories/tasks.py:96-101 and 480-486) are not modelled. They set the status to failed with `str(e)` as the error and re-raise, after whatever the task had already stored. The early return when the repository no longer exists (tasks.py:37, 408 and 551) is not modelled either, because the tasks take the repository itself.
- Tasks.GenerateAiSummaries: scores are saved one contributor at a time, and an error between two saves would leave some contributors rescored and others not. The model rescores the table in one step. An exception inside `_calculate_contributor_scores` is not an input.
- Fernet encryption of the GitHub token is not modelled. A stored token is an abstract `Sealed` value, and missing-key and decryption errors are not modelled.
- Password hashing is not modelled. `check_password` is equality with the password the user was created with.
- DRF field-level validation is not modelled: `URLField`, which may reject the `git@` form before the regex runs, required and blank `CharField`s, and `int()` parse errors of query parameters. Parameters arrive already typed.
- The Anthropic calls, `extract_and_parse_json` and the content of AI summaries are not modelled. Only the truncation of the prompt builders is modelled, and a summary failure is an input.
- `_generate_overall_summary`'s database statistics are not modelled. Only the prompt's period and contributor truncation is.
- The f-string formatting of dates and timestamps in the prompts and the stored rows is not modelled.
- Floating point in `calculate_impact_score` is not modelled. The score is exact in twentieths of a point, and `Scoring.ScoreFromTwentieths` proves it equal to the exact real-valued formula.
- Timezone conversion of commit timestamps is not modelled. Commit dates are calendar days, and Python's year-9999 upper bound on dates is not modelled.
- `generate_markdown_export`, export download and streaming, the celery beat task, and the HTTP wrappers in frontend/src/lib/repositories.ts are not modelled. They are not defined in the modelled files or are plumbing.
- React rendering is not modelled. The router is reduced to the last pushed route, and effects are the method calls that run them.
- JavaScript strings are UTF-16, while Dafny strings here are sequences of characters, so lengths may differ outside the BMP.
- `lower()` is ASCII-only. That is exact for the two comparisons modelled: `detail == "true"` in `RepositoryViews.UseDetail` and the "rate limit" search in `Tasks.RateLimited`. The only non-ASCII characters whose lowercase holds an ASCII letter are U+212A (to "k") and U+0130 (to "i" followed by a combining dot). Neither can complete either text.
- Python's `$` also matches before a final newline, and `RepositorySerializers.ParseUrl` keeps that case: a URL ending in "\n" can be accepted.

## Findings

| source | as written | input that shows it | evidently intended | confidence | as-written member | corrected member |
|---|---|---|---|---|---|---|
| backend/apps/repositories/serializers.py:370 | `repo_name.replace('.git', '')` removes ".git" anywhere in the name | `https://github.com/octo/octo.github.io`: GitHub is asked for "octo/octohub.io", so the usual answer is a 404 "Repository not found" (or, if that repository exists, the wrong one is stored) | strip only a trailing ".git" (the regex already excludes one) | not executed | RepositoryViews.CreateAsWrittenAsksForWrongRepository | RepositoryViews.CreateCorrectedFindsRepository |
| backend/apps/repositories/models.py:167-173 | `CommitData.commit_group` uses `on_delete=CASCADE`, and tasks.py:446 deletes the old groups before regrouping | a repository analysed once, then re-analysed: the fetch keeps the old links, so every commit is deleted with its group and the analysis ends with no commits and no groups | unlink the commits (`SET_NULL`) and regroup them | not executed | Tasks.CascadeLosesAnalysedCommits | Tasks.Regroup |
