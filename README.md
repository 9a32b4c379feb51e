# vulnbot: the finding-aggregation core, modelled and proved in Dafny

vulnbot collects vulnerability findings from GitHub Dependabot and from AWS ECR image scans. It
merges them into one collection of projects and summarises them per project and per owning team.
This project models that core in Dafny 4.11 and proves properties of the model:

- **The project collection** (`project.dfy`, module `Querying`). `ProjectCollection`, `Project` and
  `Finding` are classes updated in place. `GetProject` is get-or-create by normalised name.
  `GetFinding` is get-or-merge by partial identifier match. Each method is specified through a
  value snapshot (`Records()`, `Record()`) and the value functions `RegisterProject` and
  `MergeFinding`.
- **The GitHub collector** (`github.go`, module `GitHub`):
  - the repository-cursor walk;
  - the alert fill policy;
  - the per-repository alert-cursor follow-ups;
  - the team-cursor ownership walk and its filter.
- **The ECR collector** (`aws.go`, module `Aws`):
  - the NextToken repository listing;
  - the latest-image choice;
  - the scan-findings walk with its per-page `break`;
  - the parsers `extractFindingType` and `extractPackageName`.
- **The summariser** (`summary.dfy`, module `Reporting`). It covers the per-severity and
  per-ecosystem tallies, the highest-criticality rule, the report sort order and the grouping of
  project summaries by team with a synthetic `summary` entry. It covers both
  `reporting/summary.go` and its older copy `internal/summary.go`.
- **The legacy string-keyed reports** (`legacy.dfy`, module `LegacyReporting`). These are the
  tallies, the overall summary, the grouping by owner with the `__none__` fallback, and the
  per-team reports.
- **The configuration lookups** (`config.dfy`, module `Config`).
- **Shared helpers:**
  - `paging.dfy`: supplied response sequences and cursor and token walks;
  - `tallies.dfy`: Go's `m[k] += 1` tallies and map sums;
  - `ascii.dfy`: the case mapping, `strings.Title` and string order;
  - `wrappers.dfy`: `Option`, `Result` and Go's zero-value map read.

The network is not modelled. Every remote call (a GraphQL query, `DescribeRepositories`,
`DescribeImages`, `DescribeImageScanFindings`) is answered from a sequence of responses supplied
as a parameter, one per call, in call order. A call made after the responses are used up fails
with the error `"no response"`. The collectors' methods also return the cursors or tokens they
sent, so the paging rules are stated about them.

The model follows the code as written:

- The GitHub merge fills `Ecosystem` only while it is empty (`querying/github.go:127-129`). It
  does not overwrite it on every alert.
- `GetFinding` does not keep findings pairwise disjoint in their identifiers. `MergeCanLeaveSharedPair`
  exhibits two findings sharing a pair.
- The shown `Project` struct has only `Links`, while `querying/github.go:108` writes
  `project.Link` and `:207` writes `project.Owners`. The model gives a project a `links` map and an
  `owners` set. The Dependabot link is stored under the key `"GitHub"`, the key
  `querying/github_test.go:52` reads. Its value is the repository URL followed by
  `/security/dependabot`, as `querying/github.go:108` builds it. The test expects the bare
  repository URL there instead.

## Model

| member | source | states |
|---|---|---|
| Config.Rank | config/severities.go:5-12 | the `iota` value of each severity: Critical is 0, Undefined is 5, all below 6 |
| Config.RankInjective | config/severities.go:5-12 | distinct severities have distinct ranks, so comparing ranks orders severities strictly |
| Config.SeverityNameInjective | reporting/summary.go:8-15 | distinct severities have distinct display names |
| Config.GetTeamConfigBySlug | configs/config.go:113-120 | no error exactly when some team has the slug, and then it is the first such team; otherwise the zero team and "No config found for team " + slug |
| Config.GetIconForSeverity | configs/config.go:94-102 | the emoji of the first entry labelled with the severity's display name, else the default icon " " |
| Config.GetIconForEcosystem | configs/config.go:104-111 | the emoji of the first entry whose lower-cased label is the ecosystem, else " " |
| Config.TeamFoundBySlug | configs/config_test.go:40-50 | a configured slug finds its team with no error |
| Config.EcosystemLabelCaseIgnored | configs/config_test.go:30-38 | a label configured as "Python" gives the icon of ecosystem "python" |
| Wrappers.Lookup | querying/github.go:128 | a Go map read: the entry when present, the zero value on a miss |
| Querying.NewFindingRecord | querying/project.go:91-94 | a new finding holds exactly the given identifiers, and every other field is at its zero value |
| Querying.NewProjectRecord | querying/project.go:23-30 | a new project has the name and no findings, links or owners |
| Querying.Finding.constructor | querying/project.go:92-94 | a new finding object's snapshot is the new finding record |
| Querying.Project.constructor | querying/project.go:24-30 | a new project object's snapshot is the new project record |
| Querying.ProjectCollection.constructor | querying/project.go:33-37 | a new collection holds no project and satisfies the collection invariant |
| Querying.MatchesIdentifiers | querying/project.go:83-89 | the inner loop finds a match exactly when the two maps share a (kind, identifier) pair |
| Querying.LastMatch | querying/project.go:82-90 | the chosen finding shares a pair with the input and no later finding does; -1 when none does |
| Querying.Project.LastMatching | querying/project.go:79-90 | the outer loop returns the object of the last matching finding, or null |
| Querying.Project.GetFinding | querying/project.go:76-102 | the findings become `MergeFinding` of the old ones; the returned object sits at the chosen position; without a match it is fresh and appended; links and owners are kept |
| Querying.Project.MergeMatched | querying/project.go:96-100 | on the last match the list of objects is kept and only the merge happens |
| Querying.Project.AddFinding | querying/project.go:91-95 | without a match a fresh finding holding the identifiers is appended |
| Querying.Project.CopyIdentifiers | querying/project.go:99 | `maps.Copy`: the matched finding's identifiers become the old map overwritten by the input; every other finding is unchanged |
| Querying.MergeFindingAppends | querying/project.go:91-95 | with no match, exactly one finding holding exactly the input is appended and the rest is kept |
| Querying.MergeFindingUpdates | querying/project.go:96-100 | with a match the length is kept, only the last match changes, and only its identifiers, to the union with the input winning |
| Querying.MergedFindingHasIdentifiers | querying/project.go:76-102 | the returned finding carries every identifier asked for |
| Querying.MergeCanLeaveSharedPair | querying/project.go:82-100 | two identifier sets arriving apart and then together leave two findings sharing ("CVE", "1") |
| Querying.NormalizeIsNormal | querying/project.go:46-57 | a normalised name holds only lower-case letters, digits and '_' |
| Querying.NormalizeFixesNormal | querying/project.go:46-57 | a name already in normal form is unchanged |
| Querying.NormalizeIdempotent | querying/project.go:39-57 | normalising twice is normalising once |
| Querying.NormalizeExample | querying/project_test.go:18-22 | "Heart-of-Gold: Improbability Drive!" becomes "heart_of_gold_improbability_drive": upper case lowered, ':' and '!' dropped, '-' and ' ' turned into '_' |
| Querying.IndexOfName | querying/project.go:65-69 | the first project whose name normalises to the input, or -1 |
| Querying.RegisterProjectSpec | querying/project.go:61-74 | the project returned is named by the normalised input, and names stay normal and distinct |
| Querying.RegisterFound | querying/project.go:65-69 | when the normalised name exists, that project is returned and nothing is added |
| Querying.RegisterAppended | querying/project.go:70-73 | otherwise one empty project with that name is appended at the end and returned, the others untouched |
| Querying.RegisterProjectTwice | querying/project_test.go:24-30 | registering one name twice adds at most one project and returns the same position both times |
| Querying.RegisterProjectEquivalentNames | querying/project.go:64-66 | two spellings with the same normal form meet at the same project |
| Querying.ProjectCollection.GetProject | querying/project.go:59-74 | the snapshot becomes `RegisterProject` of the old one; the returned object is at `ProjectIndex` and named by the normalised input; the list is kept or grows by one fresh project |
| Querying.ProjectCollection.AddProject | querying/project.go:71-73 | a fresh empty project goes at the end and the collection stays valid |
| Querying.ProjectChanged | querying/project.go:11-21 | an update confined to one project keeps the collection valid, changes the snapshot at that project alone and only adds fresh objects to the footprint |
| Querying.ProjectAppended | querying/project.go:72 | appending a fresh, empty, validly named project keeps the collection valid and extends the snapshot by it |
| GitHub.SeverityLookups | querying/github.go:61-66 | the four GitHub severity names map to their severities, and any other name reads as the zero severity |
| GitHub.IdentifierMapOf | querying/github.go:113-116 | the identifier loop builds `IdentifiersOf` of the advisory's identifiers |
| GitHub.IdentifiersOfSpec | querying/github.go:113-116 | one entry per identifier kind, holding the value of the last identifier of that kind |
| GitHub.FillAllPolicy | querying/github.go:124-133 | over any run of alerts on one finding: the first non-empty description, ecosystem and package win, the severity is the last alert's, and the identifiers stay |
| GitHub.ApplyAlertSpec | querying/github.go:119-134 | an alert changes only the finding GetFinding picks, which then carries all the alert's identifiers; the name, links and owners stay |
| GitHub.FillFinding | querying/github.go:124-133 | the fill writes the policy's record into the one finding at its position |
| GitHub.ProcessAlert | querying/github.go:119-134 | one alert: the project's snapshot becomes `ApplyAlert` of the old one |
| GitHub.ProcessAlerts | querying/github.go:112-135 | the alert loop merges the page's alerts in order |
| GitHub.LinkProject | querying/github.go:108 | only the Dependabot link of that project changes |
| GitHub.RegisterRepo | querying/github.go:104-108 | GetProject on the repository's name, then that project's Dependabot link |
| GitHub.ProcessAlertPage | querying/github.go:104-135 | one page of alerts: register, link, merge |
| GitHub.MergeAlerts | querying/github.go:112-135 | the page's alerts change project `k` alone |
| GitHub.ProcessRepoFindings | querying/github.go:102-154 | the snapshot, error and cursors sent are those of `RepoFindings`: one page, then follow-ups while the page says there is more |
| GitHub.RepoFindingsCursors | querying/github.go:137-151 | follow-up `j` carries page `j`'s end cursor and is sent exactly while that page has a next one; the walk ends without error exactly when its last page has none |
| GitHub.RepoFindingsRegisters | querying/github.go:102-154 | a repository's pass registers its project whatever its follow-ups return |
| GitHub.ProcessRepoPage | querying/github.go:86-91 | the repositories of one page are processed in order, a repository's error only logged |
| GitHub.PageFindingsRegistersAll | querying/github.go:86-91 | every repository of a page gets its project whatever errors the others met, and existing projects keep their places |
| GitHub.WalkRepos | querying/github.go:73-97 | the repository cursors sent are the cursor walk (nil first, then each end cursor); the snapshot and error are those of `RepoWalk` |
| GitHub.CollectFindings | querying/github.go:68-100 | a run's snapshot and outcome are `Collect`'s; a failed repository walk sends no ownership query, otherwise the team walk's queries are sent |
| GitHub.FailedRunAddsNoOwner | querying/github.go:81-85 | a failed repository query ends the run with its error, keeps what was merged and adds no owner |
| GitHub.CompletedRunGathersOwners | querying/github.go:93-99 | a completed run is the owner pass applied to what the findings pass left |
| GitHub.HasDisableVulnbotTopic | querying/github.go:215-223 | true exactly when some topic, lower-cased, contains "disable-vulnbot" |
| GitHub.EdgeOwnersRule | querying/github.go:194-211 | after one edge, a team owns a project exactly when it did before, or it is the edge's team and the edge is eligible (not archived, fork or opted out; ADMIN or MAINTAIN) and names the project |
| GitHub.EdgesOwnersRule | querying/github.go:194-211 | the same rule over all of a team's edges |
| GitHub.OwnerWalkGrows | querying/github.go:156-213 | ownership gathering changes only owner sets, only by adding to them, and may append new projects with no findings or links |
| GitHub.RepoWalkKeepsOwners | querying/github.go:79-97 | the findings pass never changes an owner set |
| GitHub.GatherRepoOwners | querying/github.go:156-178 | the team cursors follow the cursor walk with the repository cursor left nil; a failed query gives the fatal error; the snapshot is `OwnerWalk`'s |
| GitHub.ProcessRepoOwners | querying/github.go:187-213 | every team of a page, in order |
| GitHub.ProcessTeam | querying/github.go:188-193 | a team the configuration does not know is skipped |
| GitHub.ProcessTeamRepos | querying/github.go:194-211 | every repository edge of a configured team |
| GitHub.ProcessEdge | querying/github.go:195-210 | an ignored edge or another permission changes nothing; otherwise the team is added as owner |
| GitHub.GrantOwner | querying/github.go:205-207 | GetProject on the edge's repository, then the team is added to its owners |
| GitHub.AddOwner | querying/github.go:207 | only that project's owner set changes, by the team |
| GitHub.OwnerQueries | querying/github.go:160-177 | each ownership query has a nil repository cursor and the team cursor of its call |
| Paging.CursorWalkShape | querying/github.go:79-97 | every call but the last continues, the last does not, and each later call carries the previous page's end cursor |
| Paging.CursorWalkCount | querying/github.go:73-97 | k successful pages, only the last without a next page, take exactly k queries |
| Paging.TokenWalkShape | querying/aws.go:74-97 | every call after the first carries the previous page's NextToken, and the walk stops at a failure or a page without one |
| Paging.ListingSpec | querying/aws.go:74-97 | a listing succeeds exactly when every call of its walk does, and is then all pages' items in order; otherwise it is the error of the walk's last call |
| Aws.EcrSeverityLookups | querying/aws.go:30-37 | the ECR severity names map to their severities, MEDIUM to Moderate, and any other name reads as the zero severity |
| Aws.LetterRun | querying/aws.go:197 | the length of the run of letters at the start of a name |
| Aws.DigitRun | querying/aws.go:197 | the length of the run of digits at the start of a string |
| Aws.ExtractFindingTypeSpec | querying/aws.go:196-204 | a type is found exactly when the name matches `^[A-Za-z]+-\d+-\d+$`, and it is then the leading letters, the name being type-digits-digits |
| Aws.ExtractFindingTypeOfCve | querying/aws.go:196-204 | "CVE-2021-1234" has type "CVE" |
| Aws.ExtractFindingTypeOfShortName | querying/aws.go:199-203 | a name missing its second number has no type |
| Aws.ExtractFindingTypeOfDigitInScheme | querying/aws.go:197 | a scheme holding a digit gives no type |
| Aws.CveNameType | querying/aws.go:196-204 | every name shaped CVE-digits-digits has type "CVE" |
| Aws.ExtractPackageName | querying/aws.go:206-213 | the value of the first attribute keyed "package_name", else "" |
| Aws.LatestIndexSpec | querying/aws.go:183-190 | the chosen image is the one the stable newest-first sort puts first (the earliest of the latest pushed), and no other is |
| Aws.LatestImage | querying/aws.go:172-194 | a failed call passes its error on; no images gives "no images found in the repository"; otherwise the latest image |
| Aws.FillAllFromScansPolicy | querying/aws.go:151-158 | over any run of scan findings on one finding: description and severity are the last one's, the package is the last one named, and identifiers and ecosystem stay |
| Aws.ApplyScanFindingSpec | querying/aws.go:148-158 | a scan finding changes only the finding GetFinding picks for `{type: type}`, which then carries that pair |
| Aws.ApplyScanPageStops | querying/aws.go:139-146 | everything on a page after a finding without a type is ignored |
| Aws.SameTypeFindingsMerge | querying/aws.go:148-149 | two scan findings of the same type land on one finding: the second adds none and overwrites the description and severity |
| Aws.ScanWalkEnds | querying/aws.go:125-167 | the scan loop ends without error exactly when the last call of its token walk succeeds |
| Aws.ImageScanFindingsSpec | querying/aws.go:112-170 | a repository's pass registers and links its project, changes no other project and keeps names normal and distinct |
| Aws.ProcessRepositoriesRegistersAll | querying/aws.go:99-104 | unless a panic stops the loop, every listed repository gets its project whatever errors the others met |
| Aws.CollectListing | querying/aws.go:74-97 | a failed listing call fails the run with its error and leaves the collection as it was; otherwise all listed repositories are processed in order |
| Aws.CompletedRunRegistersAll | querying/aws.go:67-107 | a completed run has a project for every repository of every listed page |
| Aws.ListRepositories | querying/aws.go:71-97 | the loop returns `Listing` of the pages and sends the tokens of the token walk |
| Aws.FillScanFinding | querying/aws.go:151-158 | the fill writes the scan policy's record into the one finding at its position |
| Aws.ProcessScanFinding | querying/aws.go:148-158 | one typed scan finding: the project's snapshot becomes `ApplyScanFinding` of the old one |
| Aws.ProcessScanPage | querying/aws.go:139-159 | the findings loop of one page merges them in order until one has no type |
| Aws.ScanQueries | querying/aws.go:126-133 | one query per token sent, each with the repository, the image digest and the image's last tag |
| Aws.WalkScanPages | querying/aws.go:125-167 | the project's snapshot and error are those of `ScanWalk`, and the tokens sent are the token walk |
| Aws.ScanRepository | querying/aws.go:123-167 | the scan loop changes project `k` alone, and its queries are `ScanQueries` of the token walk |
| Aws.LinkEcr | querying/aws.go:116 | only the ECR link of that project changes |
| Aws.RegisterRepository | querying/aws.go:115-116 | GetProject on the repository's name, then its ECR link |
| Aws.ProcessImageScanFindings | querying/aws.go:112-170 | snapshot, error and panic are those of `ImageScanFindings`; scan queries are sent only when a latest image with a tag exists |
| Aws.ProcessRepositoryList | querying/aws.go:99-104 | each repository in order until one panics |
| Aws.CollectFindings | querying/aws.go:67-107 | a run's snapshot and outcome are `Collect`'s, and the listing tokens sent are the token walk |
| Reporting.NewSeverityMap | reporting/summary.go:17-28 | exactly the keys Critical, High, Moderate and Low, all at 0 |
| Reporting.GetSeverityReportOrder | reporting/summary.go:30-41 | six severities, each at the position of its rank |
| Reporting.FirstCounted | reporting/summary.go:60-65 | the first severity of the order with a positive count, nothing before it counted; none when none is |
| Reporting.GetHighestCriticality | reporting/summary.go:56-67 | the result is counted unless it is Undefined, and no more severe severity is counted |
| Reporting.HighestCriticalityOfOne | reporting/summary_test.go:123-145 | a single finding of each severity gives that severity, and none gives Undefined |
| Reporting.LessIrreflexive | reporting/summary.go:126-133 | no summary sorts before itself |
| Reporting.LessTransitive | reporting/summary.go:126-133 | the order is transitive |
| Reporting.LessTotal | reporting/summary.go:126-133 | two summaries neither of which sorts first have the same criticality and name |
| Reporting.SortFixture | reporting/summary_test.go:147-190 | foo, baz and bar sort to bar, foo, baz |
| Reporting.TallyFindings | reporting/summary.go:97-103 | the inner loop counts each finding once in the overall tallies and once in the project's |
| Reporting.SummarizeProject | reporting/summary.go:89-105 | one project's report is `ProjectSummaryOf` it, and its findings join the overall tallies |
| Reporting.ProjectReportsOf | reporting/summary.go:88-106 | one report per project, in collection order |
| Reporting.SummarizeFindings | reporting/summary.go:83-111 | the overall report is `OverallSummaryOf` the projects, and report `i` is project `i`'s |
| Reporting.OverallTalliesAddUp | reporting/summary.go:97-108 | each overall tally sums to the total count |
| Reporting.ProjectSummaryShape | reporting/summary.go:89-104 | a project's report is named after it; without findings it is zero, else one affected repository and its finding count, each tally summing to it |
| Reporting.OverallIsSumOfProjects | reporting/summary.go:83-111 | the overall counts are the sums of the per-project counts |
| Reporting.SummarizeFixture | reporting/summary_test.go:62-79 | the test collection gives 4 findings in 2 repositories; by ecosystem go 2, js 1, python 1; by severity Critical 2, High 1, Info 1, Moderate and Low 0; the empty project's summary is the fresh one |
| Reporting.SummaryFor | reporting/summary.go:141-147 | the first summary with the project's name, else Go's zero summary |
| Reporting.FindSummary | reporting/summary.go:141-147 | the search loop returns `SummaryFor` |
| Reporting.AddToOwners | reporting/summary.go:148-151 | the summary is appended to the list of each owner, a missing list read as empty, and every other list is kept |
| Reporting.OwnedSummariesMembers | reporting/summary.go:140-152 | a team's list holds the summary of each project it owns and only of those |
| Reporting.GroupOwnedSummaries | internal/summary.go:102-119 | each owning team maps to its projects' summaries in collection order, with no extra entry |
| Reporting.TeamSummaryReport | reporting/summary.go:155-158 | the team's entry is named "summary" and totals its projects' total counts |
| Reporting.GroupTeamFindings | reporting/summary.go:137-162 | the grouping, with the team entry appended to every team's list |
| Reporting.TeamListsEndInSummary | reporting/summary.go:137-162 | the teams keyed are exactly the owners; each list is the team's summaries followed by one "summary" entry totalling them |
| Reporting.OneSummaryEntry | reporting/summary.go:154-160 | when no owned project is itself named "summary", the list holds exactly one entry of that name |
| Reporting.GroupTeamFindingsFixture | reporting/summary_test.go:192-245 | the test's three teams get their projects' summaries in collection order, then a zero "summary" entry |
| LegacyReporting.NewSeverityMapShape | reporting/reports.go:3-10 | exactly the keys Critical, High, Moderate and Low at 0 |
| LegacyReporting.TallyVulnsBySeverity | reporting/utils.go:12-17 | the counts become the tally of Title(Lower(severity)) of each alert |
| LegacyReporting.TallyVulnsByEcosystem | reporting/utils.go:19-28 | the counts become the tally of Title(Lower(ecosystem)) of each alert, a missing key first created at 0 |
| LegacyReporting.SeedThenIncrement | reporting/utils.go:22-26 | creating a missing key at 0 and adding one is `m[k] += 1` |
| LegacyReporting.TallyEffect | reporting/utils.go:12-28 | a tally grows the map's sum by one per alert and leaves every label it does not produce alone |
| LegacyReporting.SeededSeverityCounted | reporting/utils.go:12-17 | an alert whose severity normalises to a seeded key is counted there, keeping the four keys |
| LegacyReporting.UpperCaseSeverityHitsSeededKey | reporting/utils.go:14-15 | "LOW" is counted under the seeded "Low" |
| LegacyReporting.GetRepositoryOwners | reporting/utils.go:30-38 | the recorded owners, or none when the repository is not recorded |
| LegacyReporting.ListedOwners | reporting/utils.go:60-63 | a repository is listed under at least one owner, `__none__` when it has none |
| LegacyReporting.CountAffected | reporting/utils.go:46-48 | at most the number of repositories |
| LegacyReporting.CollateSummaryReport | reporting/utils.go:40-54 | reported totals summed, repositories with a positive total counted, fetched alerts tallied |
| LegacyReporting.SummaryReportCounts | reporting/utils.go:40-54 | each tally sums to the number of fetched alerts; affected repositories are at most all, and all when each reports one |
| LegacyReporting.AppendUnder | reporting/utils.go:64-70 | the repository is appended once under each owner slug, each missing list created empty |
| LegacyReporting.GroupVulnsByOwner | reporting/utils.go:56-73 | the result is the grouping of every repository under each owner it is listed under |
| LegacyReporting.ListedUnderMembers | reporting/utils.go:56-73 | a repository is under an owner exactly when that owner is among those it is listed under, and none is dropped |
| LegacyReporting.OwnerSlugsMembers | reporting/utils.go:56-73 | the grouping's keys are exactly the owners some repository is listed under |
| LegacyReporting.AddSeverityCounts | reporting/utils.go:92-96 | the severity loop adds each count into the team tallies, and the total into both totals |
| LegacyReporting.AddSeverityCountsInOrder | reporting/utils.go:92-96 | the same loop over the keys in visiting order, each key once |
| LegacyReporting.CollateRepo | reporting/utils.go:85-98 | one repository updates the team's summary entry, then writes its own report |
| LegacyReporting.CollateTeam | reporting/utils.go:80-99 | one team's reports are `TeamReportOf` its repositories |
| LegacyReporting.CollateTeamReports | reporting/utils.go:75-103 | one map per team, each that team's reports |
| LegacyReporting.RepoReportCounts | reporting/utils.go:88-96 | a repository's report counts each fetched alert once, and its total is their number |
| LegacyReporting.TeamSummaryCounts | reporting/utils.go:84-97 | with no repository named "summary", the team entry counts each repository once, has the tallies of the team's overall summary, and its total sums its severity tallies |
| LegacyReporting.TeamRepoEntry | reporting/utils.go:98 | a repository not named "summary" and not renamed later keeps its own report |
| LegacyReporting.SummaryNamedRepoReplacesAggregate | reporting/utils.go:97-98 | a repository named "summary" overwrites its team's aggregate entry |
| Tallies.Inc | reporting/summary.go:98-102 | `m[k] += 1`: the key goes up by one from its value or 0, and nothing else changes |
| Tallies.TallySum | reporting/utils.go:12-17 | each tallied element adds exactly one to the sum of the map |
| Ascii.ToLowerOfLower | querying/project.go:54 | lower-casing a string without upper-case letters leaves it as it is |
| Ascii.LexLessTotal | reporting/summary.go:132 | Go's string order is total: of two distinct strings, one is less |

## Left out

- Concurrency: the mutexes of `ProjectCollection`, `Project` and `Finding`, and the `WaitGroup` of the collectors. The collectors and the driver run one after another, so every operation is modelled sequentially.
- Transport: the GraphQL, oauth2 and AWS SDK clients. Each remote call is replaced by a supplied response or error.
- Running out of supplied responses: a walk that still expects a page is answered with the error `"no response"`. That error does not exist in the program.
- `log.Fatal` after a failed ownership query, and the panic of indexing an image without tags, are modelled as an `Aborted` outcome. The process exit itself is not modelled.
- Logging, Slack and console output, the CLI, and configuration and `.env` loading.
- The superseded copies of the legacy helpers in `main.go`, `internal/scan.go` and `pkg/scan.go`.
- Normalisation and `strings.Title`/`strings.ToLower` are modelled on ASCII. `\p{L}` and `\p{N}` become ASCII letters and digits, with no Unicode case mapping.
- Time: an image's push time is a plain integer.
- Nil pointer fields of SDK responses (`*vuln.Name`, `*vuln.Description`, `ImagePushedAt`, `RepositoryName`, `RepositoryUri`) are not modelled. Go would panic on such a response; the model gives every field a value.
- Aws.LatestImage: the stable sort of `getLatestImage` is not modelled as a sort. It is modelled by the element that sort puts first, the first image with the greatest push time. The order the sort leaves behind is not modelled, because nothing else reads it.
- Aws.ExtractPackageName: a `package_name` attribute with a nil value dereferences nil in Go. The model gives every attribute a value.
- Aws.ListRepositories: `&repo` inside the range loop at `querying/aws.go:84` aliases Go's loop variable on toolchains before Go 1.22. The model lists the repositories themselves, as intended.
- Unknown severity or ecosystem names read Go's zero value through a map miss, through `Lookup` with the zero severity Critical (rank 0) or the empty ecosystem. No claim is made that such findings are "Undefined".
- Aws.ApplyScanFinding: ECR findings are keyed by `{type: type}` (`querying/aws.go:148`), so all findings of one type in a repository merge into one finding. This is modelled as written and shown by `SameTypeFindingsMerge`.
- Querying.Project.GetFinding: Go returns the same pointer that callers then fill. The model returns the object and proves its position. The callers' later writes go through `FillFinding` and `FillScanFinding` at that position.
- `TeamProjectCollection.Len` and `Swap`, and the sort call that uses `Less`, are not modelled. Only the comparator is, with its ordering properties.
