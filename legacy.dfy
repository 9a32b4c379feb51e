/**
 * The legacy, string-keyed reports: tallies keyed by `strings.Title(strings.ToLower(label))`,
 * an overall summary over the repositories of an organisation, the grouping of repositories
 * under their owning teams (or under `__none__`) and one report per repository and team, with a
 * synthetic "summary" entry per team.
 *
 * Go's tally helpers update a map the caller passes in; here they return the updated map.
 */
module LegacyReporting {
  import opened Tallies
  import Ascii

  /** The owner under which repositories without owners are listed. */
  const NoOwnerKey := "__none__"

  /** The key of each team's aggregate entry. */
  const SummaryKey := "summary"

  datatype VulnerabilityAlert = VulnerabilityAlert(severity: string, ecosystem: string, packageName: string)

  /** A repository as the alert query returns it: the reported alert count and at most one page of alerts. */
  datatype VulnerabilityRepository = VulnerabilityRepository(name: string, totalCount: int, nodes: seq<VulnerabilityAlert>)

  datatype VulnerabilityReport = VulnerabilityReport(
    totalCount: int,
    affectedRepos: int,
    vulnsByEcosystem: map<string, int>,
    vulnsBySeverity: map<string, int>)

  /** The four seeded severity keys, all at zero; "Info" and "Undefined" are not seeded. */
  function NewSeverityMap(): map<string, int>
  {
    map["Critical" := 0, "High" := 0, "Moderate" := 0, "Low" := 0]
  }

  /** Exactly the four seeded keys, all at zero; "Info" and "Undefined" are not among them. */
  lemma NewSeverityMapShape()
    ensures NewSeverityMap().Keys == {"Critical", "High", "Moderate", "Low"}
    ensures forall k | k in NewSeverityMap() :: NewSeverityMap()[k] == 0
    ensures "Info" !in NewSeverityMap() && "Undefined" !in NewSeverityMap()
  {
  }

  function NewVulnerabilityReport(): VulnerabilityReport
  {
    VulnerabilityReport(0, 0, map[], NewSeverityMap())
  }

  /** `VulnerabilityReport{}`: what a miss on a team's report map reads as. */
  const ZeroReport := VulnerabilityReport(0, 0, map[], map[])

  /** The key each alert's severity is counted under. */
  function SeverityLabels(vulns: seq<VulnerabilityAlert>): (labels: seq<string>)
    ensures |labels| == |vulns|
  {
    seq(|vulns|, i requires 0 <= i < |vulns| => Ascii.TitleLower(vulns[i].severity))
  }

  /** The key each alert's ecosystem is counted under. */
  function EcosystemLabels(vulns: seq<VulnerabilityAlert>): (labels: seq<string>)
    ensures |labels| == |vulns|
  {
    seq(|vulns|, i requires 0 <= i < |vulns| => Ascii.TitleLower(vulns[i].ecosystem))
  }

  lemma LabelsAppend(a: seq<VulnerabilityAlert>, b: seq<VulnerabilityAlert>)
    ensures SeverityLabels(a + b) == SeverityLabels(a) + SeverityLabels(b)
    ensures EcosystemLabels(a + b) == EcosystemLabels(a) + EcosystemLabels(b)
  {
  }

  /** One `+= 1` per alert on the key of its severity, nothing else. */
  method TallyVulnsBySeverity(vulns: seq<VulnerabilityAlert>, vulnCounts: map<string, int>)
    returns (counts: map<string, int>)
    ensures counts == Tally(vulnCounts, SeverityLabels(vulns))
  {
    counts := vulnCounts;
    IncAllUpToStart(vulnCounts, SeverityLabels(vulns));
    var i := 0;
    while i < |vulns|
      invariant 0 <= i <= |vulns|
      invariant IncAllUpTo(vulnCounts, SeverityLabels(vulns), i, counts)
    {
      var severity := Ascii.TitleLower(vulns[i].severity);
      IncAllUpToNext(vulnCounts, SeverityLabels(vulns), i, counts, severity);
      counts := counts[severity := Get(counts, severity) + 1];
      i := i + 1;
    }
    IncAllUpToEnd(vulnCounts, SeverityLabels(vulns), counts);
  }

  /** One `+= 1` per alert on the key of its ecosystem, a missing key being created at 0 first. */
  method TallyVulnsByEcosystem(vulns: seq<VulnerabilityAlert>, vulnCounts: map<string, int>)
    returns (counts: map<string, int>)
    ensures counts == Tally(vulnCounts, EcosystemLabels(vulns))
  {
    counts := vulnCounts;
    IncAllUpToStart(vulnCounts, EcosystemLabels(vulns));
    var i := 0;
    while i < |vulns|
      invariant 0 <= i <= |vulns|
      invariant IncAllUpTo(vulnCounts, EcosystemLabels(vulns), i, counts)
    {
      var ecosystem := Ascii.TitleLower(vulns[i].ecosystem);
      IncAllUpToNext(vulnCounts, EcosystemLabels(vulns), i, counts, ecosystem);
      counts := SeedThenIncrement(counts, ecosystem);
      i := i + 1;
    }
    IncAllUpToEnd(vulnCounts, EcosystemLabels(vulns), counts);
  }

  /** The ecosystem loop's update: a missing key is first created at 0, which leaves `m[k] += 1`. */
  method SeedThenIncrement(counts: map<string, int>, key: string) returns (counts': map<string, int>)
    ensures counts' == counts[key := Get(counts, key) + 1]
  {
    counts' := counts;
    if key !in counts' {
      counts' := counts'[key := 0];
    }
    counts' := counts'[key := counts'[key] + 1];
  }

  /** A tally grows the sum of the map by one per alert and leaves every label it does not produce alone. */
  lemma TallyEffect(base: map<string, int>, labels: seq<string>, k: string)
    ensures MapSum(Tally(base, labels)) == MapSum(base) + |labels|
    ensures k !in labels ==> (k in Tally(base, labels) <==> k in base) && Get(Tally(base, labels), k) == Get(base, k)
    ensures k in labels ==> Get(Tally(base, labels), k) == Get(base, k) + Occurrences(labels, k)
  {
    TallySum(base, labels);
    if k !in labels {
      OccurrencesAbsent(labels, k);
    }
  }

  /**
   * An alert whose normalised severity is one of the seeded keys is counted under that key: the
   * severity map keeps its four keys and that one goes from 0 to 1.
   */
  lemma SeededSeverityCounted(alert: VulnerabilityAlert)
    requires Ascii.TitleLower(alert.severity) in NewSeverityMap()
    ensures Tally(NewSeverityMap(), SeverityLabels([alert])).Keys == NewSeverityMap().Keys
    ensures Tally(NewSeverityMap(), SeverityLabels([alert]))
      == NewSeverityMap()[Ascii.TitleLower(alert.severity) := 1]
  {
    var key := Ascii.TitleLower(alert.severity);
    assert SeverityLabels([alert]) == [] + [key];
    TallyEmpty(NewSeverityMap());
    TallyStep(NewSeverityMap(), [], key);
  }

  /** GitHub's upper-case "LOW" is counted under the seeded "Low" key, so no new key appears. */
  lemma UpperCaseSeverityHitsSeededKey()
    ensures Tally(NewSeverityMap(), SeverityLabels([VulnerabilityAlert("LOW", "NPM", "left-pad")]))
      == NewSeverityMap()["Low" := 1]
  {
    TitleLowerLow();
    SeededSeverityCounted(VulnerabilityAlert("LOW", "NPM", "left-pad"));
  }

  lemma TitleLowerLow()
    ensures Ascii.TitleLower("LOW") == "Low"
  {
    assert Ascii.ToLower("LOW") == "low";
  }

  /** The owners recorded for a repository, or none when it is not recorded. */
  function GetRepositoryOwners(repoName: string, repositoryOwners: map<string, seq<string>>): (owners: seq<string>)
    ensures repoName in repositoryOwners ==> owners == repositoryOwners[repoName]
    ensures repoName !in repositoryOwners ==> owners == []
  {
    if repoName in repositoryOwners then repositoryOwners[repoName] else []
  }

  /** The owners a repository is listed under: its recorded owners, or `NoOwnerKey` alone when it has none. */
  function ListedOwners(repo: VulnerabilityRepository, repositoryOwners: map<string, seq<string>>): (slugs: seq<string>)
    ensures |slugs| > 0
  {
    var owners := GetRepositoryOwners(repo.name, repositoryOwners);
    if |owners| == 0 then [NoOwnerKey] else owners
  }

  /** The sum of the alert counts the repositories report. */
  function ReportedTotal(repos: seq<VulnerabilityRepository>): int
  {
    if repos == [] then 0 else ReportedTotal(repos[..|repos| - 1]) + repos[|repos| - 1].totalCount
  }

  /** How many repositories report at least one alert. */
  function CountAffected(repos: seq<VulnerabilityRepository>): (n: nat)
    ensures n <= |repos|
  {
    if repos == [] then 0
    else CountAffected(repos[..|repos| - 1]) + (if repos[|repos| - 1].totalCount > 0 then 1 else 0)
  }

  /** Every fetched alert of the repositories, repository by repository. */
  function AllNodes(repos: seq<VulnerabilityRepository>): seq<VulnerabilityAlert>
  {
    if repos == [] then [] else AllNodes(repos[..|repos| - 1]) + repos[|repos| - 1].nodes
  }

  /** What the overall summary holds after all the repositories. */
  function SummaryReportOf(repos: seq<VulnerabilityRepository>): VulnerabilityReport
  {
    VulnerabilityReport(
      ReportedTotal(repos),
      CountAffected(repos),
      Tally(map[], EcosystemLabels(AllNodes(repos))),
      Tally(NewSeverityMap(), SeverityLabels(AllNodes(repos))))
  }

  /** One more repository adds its reported count, at most one affected repository and its alerts' tallies. */
  lemma SummaryReportStep(repos: seq<VulnerabilityRepository>, i: nat)
    requires i < |repos|
    ensures var r := SummaryReportOf(repos[..i]);
      SummaryReportOf(repos[..i + 1]) == VulnerabilityReport(
        r.totalCount + repos[i].totalCount,
        r.affectedRepos + (if repos[i].totalCount > 0 then 1 else 0),
        Tally(r.vulnsByEcosystem, EcosystemLabels(repos[i].nodes)),
        Tally(r.vulnsBySeverity, SeverityLabels(repos[i].nodes)))
  {
    var prefix := repos[..i + 1];
    assert prefix[..|prefix| - 1] == repos[..i];
    assert AllNodes(prefix) == AllNodes(repos[..i]) + repos[i].nodes;
    LabelsAppend(AllNodes(repos[..i]), repos[i].nodes);
    TallyAppend(map[], EcosystemLabels(AllNodes(repos[..i])), EcosystemLabels(repos[i].nodes));
    TallyAppend(NewSeverityMap(), SeverityLabels(AllNodes(repos[..i])), SeverityLabels(repos[i].nodes));
  }

  /** The overall summary: reported counts summed, affected repositories counted, fetched alerts tallied. */
  method CollateSummaryReport(repos: seq<VulnerabilityRepository>) returns (report: VulnerabilityReport)
    ensures report == SummaryReportOf(repos)
  {
    report := NewVulnerabilityReport();
    assert repos[..0] == [];
    var i := 0;
    while i < |repos|
      invariant 0 <= i <= |repos|
      invariant report == SummaryReportOf(repos[..i])
    {
      var repo := repos[i];
      var repoVulns := repo.totalCount;
      report := report.(totalCount := report.totalCount + repoVulns);
      if repoVulns > 0 {
        report := report.(affectedRepos := report.affectedRepos + 1);
      }
      var severities := TallyVulnsBySeverity(repo.nodes, report.vulnsBySeverity);
      var ecosystems := TallyVulnsByEcosystem(repo.nodes, report.vulnsByEcosystem);
      report := report.(vulnsBySeverity := severities, vulnsByEcosystem := ecosystems);
      SummaryReportStep(repos, i);
      i := i + 1;
    }
    assert repos[..i] == repos;
  }

  /** The number of fetched alerts. */
  function NodeCount(repos: seq<VulnerabilityRepository>): nat
  {
    if repos == [] then 0 else NodeCount(repos[..|repos| - 1]) + |repos[|repos| - 1].nodes|
  }

  lemma {:induction false} AllNodesCount(repos: seq<VulnerabilityRepository>)
    ensures |AllNodes(repos)| == NodeCount(repos)
  {
    if repos != [] {
      AllNodesCount(repos[..|repos| - 1]);
    }
  }

  /**
   * The overall summary's two tallies each sum to the number of fetched alerts; its affected count
   * is at most the number of repositories, and all of them when each reports an alert.
   */
  lemma SummaryReportCounts(repos: seq<VulnerabilityRepository>)
    ensures var r := SummaryReportOf(repos);
      MapSum(r.vulnsBySeverity) == NodeCount(repos) && MapSum(r.vulnsByEcosystem) == NodeCount(repos)
      && r.affectedRepos <= |repos|
      && ((forall i | 0 <= i < |repos| :: repos[i].totalCount > 0) ==> r.affectedRepos == |repos|)
      && ((forall i | 0 <= i < |repos| :: repos[i].totalCount <= 0) ==> r.affectedRepos == 0)
  {
    SummarySeveritySum(repos);
    SummaryEcosystemSum(repos);
    AffectedBounds(repos);
  }

  lemma SummarySeveritySum(repos: seq<VulnerabilityRepository>)
    ensures MapSum(Tally(NewSeverityMap(), SeverityLabels(AllNodes(repos)))) == NodeCount(repos)
  {
    AllNodesCount(repos);
    TallySum(NewSeverityMap(), SeverityLabels(AllNodes(repos)));
    MapSumZeros(NewSeverityMap());
  }

  lemma SummaryEcosystemSum(repos: seq<VulnerabilityRepository>)
    ensures MapSum(Tally(map[], EcosystemLabels(AllNodes(repos)))) == NodeCount(repos)
  {
    AllNodesCount(repos);
    TallySum(map[], EcosystemLabels(AllNodes(repos)));
    var none: map<string, int> := map[];
    MapSumZeros(none);
  }

  lemma {:induction false} AffectedBounds(repos: seq<VulnerabilityRepository>)
    ensures (forall i | 0 <= i < |repos| :: repos[i].totalCount > 0) ==> CountAffected(repos) == |repos|
    ensures (forall i | 0 <= i < |repos| :: repos[i].totalCount <= 0) ==> CountAffected(repos) == 0
  {
    if repos != [] {
      var init := repos[..|repos| - 1];
      assert forall i | 0 <= i < |init| :: init[i] == repos[i];
      AffectedBounds(init);
    }
  }

  /** `n` copies of `x`. */
  function Repeat<T>(x: T, n: nat): seq<T>
  {
    seq(n, _ => x)
  }

  /** The list an owner has so far; a missing owner reads as the empty list. */
  function ListOf(m: map<string, seq<VulnerabilityRepository>>, slug: string): seq<VulnerabilityRepository>
  {
    if slug in m then m[slug] else []
  }

  /** Every owner some repository is listed under. */
  function OwnerSlugs(repos: seq<VulnerabilityRepository>, owners: map<string, seq<string>>): seq<string>
  {
    if repos == [] then [] else OwnerSlugs(repos[..|repos| - 1], owners) + ListedOwners(repos[|repos| - 1], owners)
  }

  /** The repositories listed under `slug`: each repository once per time `slug` is among its owners. */
  function ListedUnder(repos: seq<VulnerabilityRepository>, owners: map<string, seq<string>>, slug: string)
    : seq<VulnerabilityRepository>
  {
    if repos == [] then []
    else
      var last := repos[|repos| - 1];
      ListedUnder(repos[..|repos| - 1], owners, slug) + Repeat(last, Occurrences(ListedOwners(last, owners), slug))
  }

  /** The grouping as a whole: an entry for each owner some repository is listed under. */
  function Grouping(repos: seq<VulnerabilityRepository>, owners: map<string, seq<string>>)
    : map<string, seq<VulnerabilityRepository>>
  {
    map slug | slug in OwnerSlugs(repos, owners) :: ListedUnder(repos, owners, slug)
  }

  /** The inner loop of the grouping: append the repository to the list of each of `slugs`, in order. */
  method AppendUnder(vulnsByTeam: map<string, seq<VulnerabilityRepository>>, slugs: seq<string>, repo: VulnerabilityRepository)
    returns (m: map<string, seq<VulnerabilityRepository>>)
    ensures forall s :: s in m <==> s in vulnsByTeam || s in slugs
    ensures forall s | s in m :: m[s] == ListOf(vulnsByTeam, s) + Repeat(repo, Occurrences(slugs, s))
  {
    m := vulnsByTeam;
    AppendUnderStart(vulnsByTeam, slugs, repo);
    var j := 0;
    while j < |slugs|
      invariant 0 <= j <= |slugs|
      invariant AppendedUnder(vulnsByTeam, slugs[..j], repo, m)
    {
      var slug := slugs[j];
      ghost var before := m;
      if slug !in m {
        m := m[slug := []];
      }
      ghost var seeded := m;
      m := m[slug := m[slug] + [repo]];
      AppendUnderNext(vulnsByTeam, slugs, j, repo, before, seeded, m);
      j := j + 1;
    }
    AppendUnderEnd(vulnsByTeam, slugs, repo, m);
  }

  lemma AppendUnderStart(vulnsByTeam: map<string, seq<VulnerabilityRepository>>, slugs: seq<string>, repo: VulnerabilityRepository)
    ensures AppendedUnder(vulnsByTeam, slugs[..0], repo, vulnsByTeam)
  {
    assert slugs[..0] == [];
  }

  lemma AppendUnderEnd(vulnsByTeam: map<string, seq<VulnerabilityRepository>>, slugs: seq<string>,
                       repo: VulnerabilityRepository, m: map<string, seq<VulnerabilityRepository>>)
    requires AppendedUnder(vulnsByTeam, slugs[..|slugs|], repo, m)
    ensures forall s :: s in m <==> s in vulnsByTeam || s in slugs
    ensures forall s | s in m :: m[s] == ListOf(vulnsByTeam, s) + Repeat(repo, Occurrences(slugs, s))
  {
    assert slugs[..|slugs|] == slugs;
  }

  /** Step `j` of the inner loop: the list of `slugs[j]`, created empty when missing, gets `repo` appended. */
  lemma AppendUnderNext(vulnsByTeam: map<string, seq<VulnerabilityRepository>>, slugs: seq<string>, j: nat,
                        repo: VulnerabilityRepository, before: map<string, seq<VulnerabilityRepository>>,
                        seeded: map<string, seq<VulnerabilityRepository>>, m: map<string, seq<VulnerabilityRepository>>)
    requires j < |slugs|
    requires AppendedUnder(vulnsByTeam, slugs[..j], repo, before)
    requires seeded == if slugs[j] in before then before else before[slugs[j] := []]
    requires slugs[j] in seeded && m == seeded[slugs[j] := seeded[slugs[j]] + [repo]]
    ensures AppendedUnder(vulnsByTeam, slugs[..j + 1], repo, m)
  {
    SeededAppend(before, seeded, slugs[j], repo);
    AppendUnderStep(vulnsByTeam, slugs[..j], repo, before, slugs[j]);
    assert slugs[..j + 1] == slugs[..j] + [slugs[j]];
  }

  /** Creating a missing list empty and then appending is appending to the list as Go reads it. */
  lemma SeededAppend(before: map<string, seq<VulnerabilityRepository>>, seeded: map<string, seq<VulnerabilityRepository>>,
                     slug: string, repo: VulnerabilityRepository)
    requires seeded == if slug in before then before else before[slug := []]
    ensures slug in seeded
    ensures seeded[slug := seeded[slug] + [repo]] == before[slug := ListOf(before, slug) + [repo]]
  {
  }

  /** `m` is `vulnsByTeam` with `repo` appended once under each of `slugs`. */
  ghost predicate AppendedUnder(vulnsByTeam: map<string, seq<VulnerabilityRepository>>, slugs: seq<string>,
                                repo: VulnerabilityRepository, m: map<string, seq<VulnerabilityRepository>>)
  {
    && (forall s :: s in m <==> s in vulnsByTeam || s in slugs)
    && (forall s | s in m :: m[s] == ListOf(vulnsByTeam, s) + Repeat(repo, Occurrences(slugs, s)))
  }

  lemma AppendUnderStep(vulnsByTeam: map<string, seq<VulnerabilityRepository>>, slugs: seq<string>,
                        repo: VulnerabilityRepository, m: map<string, seq<VulnerabilityRepository>>, slug: string)
    requires AppendedUnder(vulnsByTeam, slugs, repo, m)
    ensures AppendedUnder(vulnsByTeam, slugs + [slug], repo, m[slug := ListOf(m, slug) + [repo]])
  {
    var m' := m[slug := ListOf(m, slug) + [repo]];
    forall s ensures s in m' <==> s in vulnsByTeam || s in slugs + [slug] {
      OccurrencesSnoc(slugs, slug, s);
      OccurrencesTotal(slugs, s);
      OccurrencesTotal(slugs + [slug], s);
    }
    forall s | s in m' ensures m'[s] == ListOf(vulnsByTeam, s) + Repeat(repo, Occurrences(slugs + [slug], s)) {
      AppendUnderEntry(vulnsByTeam, slugs, repo, m, slug, s);
    }
  }

  /** The list of one owner `s` after `repo` is appended under `slug`. */
  lemma AppendUnderEntry(vulnsByTeam: map<string, seq<VulnerabilityRepository>>, slugs: seq<string>,
                         repo: VulnerabilityRepository, m: map<string, seq<VulnerabilityRepository>>, slug: string, s: string)
    requires AppendedUnder(vulnsByTeam, slugs, repo, m)
    requires s in m || s == slug
    ensures m[slug := ListOf(m, slug) + [repo]][s] == ListOf(vulnsByTeam, s) + Repeat(repo, Occurrences(slugs + [slug], s))
  {
    OccurrencesSnoc(slugs, slug, s);
    if s == slug {
      var before := ListOf(vulnsByTeam, slug);
      var n := Occurrences(slugs, slug);
      assert ListOf(m, slug) == before + Repeat(repo, n) by {
        if slug !in m {
          OccurrencesAbsent(slugs, slug);
        }
      }
      RepeatSnoc(repo, n);
      assert (before + Repeat(repo, n)) + [repo] == before + (Repeat(repo, n) + [repo]);
    }
  }

  lemma RepeatSnoc<T>(x: T, n: nat)
    ensures Repeat(x, n) + [x] == Repeat(x, n + 1)
  {
  }

  /** Every repository under each of its owners, or under `NoOwnerKey` when it has none. */
  method GroupVulnsByOwner(repos: seq<VulnerabilityRepository>, owners: map<string, seq<string>>)
    returns (vulnsByTeam: map<string, seq<VulnerabilityRepository>>)
    ensures vulnsByTeam == Grouping(repos, owners)
  {
    vulnsByTeam := map[];
    GroupStart(repos, owners);
    var i := 0;
    while i < |repos|
      invariant 0 <= i <= |repos|
      invariant GroupedUpTo(repos, owners, i, vulnsByTeam)
    {
      var repo := repos[i];
      var repoOwners := GetRepositoryOwners(repo.name, owners);
      if |repoOwners| == 0 {
        repoOwners := [NoOwnerKey];
      }
      ListedOwnersOf(repo, owners);
      ghost var prior := vulnsByTeam;
      vulnsByTeam := AppendUnder(vulnsByTeam, repoOwners, repo);
      GroupNext(repos, owners, i, prior, repoOwners, vulnsByTeam);
      i := i + 1;
    }
    GroupEnd(repos, owners, vulnsByTeam);
  }

  lemma ListedOwnersOf(repo: VulnerabilityRepository, owners: map<string, seq<string>>)
    ensures ListedOwners(repo, owners)
      == if |GetRepositoryOwners(repo.name, owners)| == 0 then [NoOwnerKey] else GetRepositoryOwners(repo.name, owners)
  {
  }

  /** `m` is the grouping of the first `i` repositories. */
  ghost predicate GroupedUpTo(repos: seq<VulnerabilityRepository>, owners: map<string, seq<string>>, i: nat,
                              m: map<string, seq<VulnerabilityRepository>>)
    requires i <= |repos|
  {
    && (forall s :: s in m <==> s in OwnerSlugs(repos[..i], owners))
    && (forall s | s in m :: m[s] == ListedUnder(repos[..i], owners, s))
  }

  lemma GroupStart(repos: seq<VulnerabilityRepository>, owners: map<string, seq<string>>)
    ensures GroupedUpTo(repos, owners, 0, map[])
  {
    assert repos[..0] == [];
  }

  /** Repository `i` appended under each owner it is listed under. */
  lemma GroupNext(repos: seq<VulnerabilityRepository>, owners: map<string, seq<string>>, i: nat,
                  prior: map<string, seq<VulnerabilityRepository>>, slugs: seq<string>,
                  m: map<string, seq<VulnerabilityRepository>>)
    requires i < |repos| && GroupedUpTo(repos, owners, i, prior)
    requires slugs == ListedOwners(repos[i], owners)
    requires forall s :: s in m <==> s in prior || s in slugs
    requires forall s | s in m :: m[s] == ListOf(prior, s) + Repeat(repos[i], Occurrences(slugs, s))
    ensures GroupedUpTo(repos, owners, i + 1, m)
  {
    GroupNextKeys(repos, owners, i, prior, slugs, m);
    forall s | s in m
      ensures m[s] == ListedUnder(repos[..i + 1], owners, s)
    {
      GroupNextEntry(repos, owners, i, prior, s);
    }
  }

  lemma GroupNextKeys(repos: seq<VulnerabilityRepository>, owners: map<string, seq<string>>, i: nat,
                      prior: map<string, seq<VulnerabilityRepository>>, slugs: seq<string>,
                      m: map<string, seq<VulnerabilityRepository>>)
    requires i < |repos| && slugs == ListedOwners(repos[i], owners)
    requires forall s :: s in prior <==> s in OwnerSlugs(repos[..i], owners)
    requires forall s :: s in m <==> s in prior || s in slugs
    ensures forall s :: s in m <==> s in OwnerSlugs(repos[..i + 1], owners)
  {
    GroupingSnoc(repos, owners, i);
    forall s ensures s in m <==> s in OwnerSlugs(repos[..i + 1], owners) {
      assert s in m <==> s in OwnerSlugs(repos[..i], owners) || s in slugs;
    }
  }

  lemma GroupNextEntry(repos: seq<VulnerabilityRepository>, owners: map<string, seq<string>>, i: nat,
                       prior: map<string, seq<VulnerabilityRepository>>, s: string)
    requires i < |repos| && GroupedUpTo(repos, owners, i, prior)
    ensures ListOf(prior, s) + Repeat(repos[i], Occurrences(ListedOwners(repos[i], owners), s))
      == ListedUnder(repos[..i + 1], owners, s)
  {
    ListedUnderSnoc(repos, owners, i, s);
    if s !in prior {
      ListedUnderStranger(repos[..i], owners, s);
    }
  }

  lemma GroupingSnoc(repos: seq<VulnerabilityRepository>, owners: map<string, seq<string>>, i: nat)
    requires i < |repos|
    ensures OwnerSlugs(repos[..i + 1], owners) == OwnerSlugs(repos[..i], owners) + ListedOwners(repos[i], owners)
  {
    assert repos[..i + 1][..i] == repos[..i];
  }

  lemma ListedUnderSnoc(repos: seq<VulnerabilityRepository>, owners: map<string, seq<string>>, i: nat, s: string)
    requires i < |repos|
    ensures ListedUnder(repos[..i + 1], owners, s)
      == ListedUnder(repos[..i], owners, s) + Repeat(repos[i], Occurrences(ListedOwners(repos[i], owners), s))
  {
    assert repos[..i + 1][..i] == repos[..i];
  }

  lemma GroupEnd(repos: seq<VulnerabilityRepository>, owners: map<string, seq<string>>,
                 m: map<string, seq<VulnerabilityRepository>>)
    requires GroupedUpTo(repos, owners, |repos|, m)
    ensures m == Grouping(repos, owners)
  {
    assert repos[..|repos|] == repos;
  }

  /** An owner no repository is listed under has an empty list. */
  lemma {:induction false} ListedUnderStranger(repos: seq<VulnerabilityRepository>, owners: map<string, seq<string>>, slug: string)
    requires slug !in OwnerSlugs(repos, owners)
    ensures ListedUnder(repos, owners, slug) == []
  {
    if repos != [] {
      var last := repos[|repos| - 1];
      ListedUnderStranger(repos[..|repos| - 1], owners, slug);
      OccurrencesAbsent(ListedOwners(last, owners), slug);
    }
  }

  /**
   * No repository is dropped and none is misfiled: a repository is under an owner's entry exactly
   * when that owner is among the owners it is listed under, and every repository has an entry.
   */
  lemma {:induction false} ListedUnderMembers(repos: seq<VulnerabilityRepository>, owners: map<string, seq<string>>, slug: string)
    ensures forall i | 0 <= i < |repos| && slug in ListedOwners(repos[i], owners) :: repos[i] in ListedUnder(repos, owners, slug)
    ensures forall r | r in ListedUnder(repos, owners, slug) ::
      exists i | 0 <= i < |repos| :: repos[i] == r && slug in ListedOwners(repos[i], owners)
  {
    if repos != [] {
      var init := repos[..|repos| - 1];
      var last := repos[|repos| - 1];
      var added := Repeat(last, Occurrences(ListedOwners(last, owners), slug));
      ListedUnderMembers(init, owners, slug);
      OccurrencesTotal(ListedOwners(last, owners), slug);
      assert forall i | 0 <= i < |init| :: init[i] == repos[i];
      assert ListedUnder(repos, owners, slug) == ListedUnder(init, owners, slug) + added;
      if slug in ListedOwners(last, owners) {
        assert added[0] == last;
      }
    }
  }

  /** The keys of the grouping are exactly the owners some repository is listed under. */
  lemma {:induction false} OwnerSlugsMembers(repos: seq<VulnerabilityRepository>, owners: map<string, seq<string>>, slug: string)
    ensures slug in OwnerSlugs(repos, owners) <==> exists i | 0 <= i < |repos| :: slug in ListedOwners(repos[i], owners)
  {
    if repos != [] {
      var init := repos[..|repos| - 1];
      OwnerSlugsMembers(init, owners, slug);
      assert forall i | 0 <= i < |init| :: init[i] == repos[i];
    }
  }

  lemma GroupingSpec(repos: seq<VulnerabilityRepository>, owners: map<string, seq<string>>, i: nat)
    requires i < |repos|
    ensures forall slug | slug in ListedOwners(repos[i], owners) ::
      slug in Grouping(repos, owners) && repos[i] in Grouping(repos, owners)[slug]
    ensures GetRepositoryOwners(repos[i].name, owners) == [] ==>
      NoOwnerKey in Grouping(repos, owners) && repos[i] in Grouping(repos, owners)[NoOwnerKey]
  {
    forall slug | slug in ListedOwners(repos[i], owners)
      ensures slug in Grouping(repos, owners) && repos[i] in Grouping(repos, owners)[slug]
    {
      OwnerSlugsMembers(repos, owners, slug);
      ListedUnderMembers(repos, owners, slug);
    }
  }

  /** A repository's own report: its alerts tallied, its total the sum of its severity tallies. */
  ghost function RepoReportOf(repo: VulnerabilityRepository): VulnerabilityReport
  {
    var severities := Tally(NewSeverityMap(), SeverityLabels(repo.nodes));
    VulnerabilityReport(MapSum(severities), 0, Tally(map[], EcosystemLabels(repo.nodes)), severities)
  }

  /** The team summary after one more repository. */
  ghost function SummaryAfter(summary: VulnerabilityReport, repo: VulnerabilityRepository): VulnerabilityReport
  {
    var repoReport := RepoReportOf(repo);
    VulnerabilityReport(
      summary.totalCount + MapSum(repoReport.vulnsBySeverity),
      summary.affectedRepos + 1,
      Tally(summary.vulnsByEcosystem, EcosystemLabels(repo.nodes)),
      AddMaps(summary.vulnsBySeverity, repoReport.vulnsBySeverity))
  }

  /** A report map read the Go way: a miss is the zero report. */
  function ReportAt(m: map<string, VulnerabilityReport>, key: string): VulnerabilityReport
  {
    if key in m then m[key] else ZeroReport
  }

  /**
   * One team's reports after its repositories in order: the summary entry updated, then the
   * repository's entry written, so that a later write under the same name wins.
   */
  ghost function TeamReportOf(repos: seq<VulnerabilityRepository>): map<string, VulnerabilityReport>
  {
    if repos == [] then map[SummaryKey := NewVulnerabilityReport()]
    else NextTeamReport(TeamReportOf(repos[..|repos| - 1]), repos[|repos| - 1])
  }

  ghost function NextTeamReport(m: map<string, VulnerabilityReport>, repo: VulnerabilityRepository)
    : map<string, VulnerabilityReport>
  {
    m[SummaryKey := SummaryAfter(ReportAt(m, SummaryKey), repo)][repo.name := RepoReportOf(repo)]
  }

  /**
   * The loop over a repository's severity tallies: each count is added into the team's severity
   * tallies, the team's total and the repository's total.
   */
  method AddSeverityCounts(severities: map<string, int>, summaryTotal: int, repoTotal: int, counts: map<string, int>)
    returns (severities': map<string, int>, summaryTotal': int, repoTotal': int)
    ensures severities' == AddMaps(severities, counts)
    ensures summaryTotal' == summaryTotal + MapSum(counts)
    ensures repoTotal' == repoTotal + MapSum(counts)
  {
    ghost var order;
    severities', summaryTotal', repoTotal', order := AddSeverityCountsInOrder(severities, summaryTotal, repoTotal, counts);
    AddKeysAddMaps(severities, counts, order);
    SumKeysMapSum(counts, order);
  }

  /** The same loop, stated over the keys in the order the loop visits them. */
  method AddSeverityCountsInOrder(severities: map<string, int>, summaryTotal: int, repoTotal: int, counts: map<string, int>)
    returns (severities': map<string, int>, summaryTotal': int, repoTotal': int, ghost order: seq<string>)
    ensures severities' == AddKeys(severities, counts, order)
    ensures summaryTotal' == summaryTotal + SumKeys(counts, order)
    ensures repoTotal' == repoTotal + SumKeys(counts, order)
    ensures Visits(order, counts.Keys)
  {
    severities', summaryTotal', repoTotal' := severities, summaryTotal, repoTotal;
    var rest := counts.Keys;
    ghost var done: set<string> := {};
    order := [];
    while rest != {}
      invariant rest <= counts.Keys && done == counts.Keys - rest
      invariant severities' == AddKeys(severities, counts, order)
      invariant summaryTotal' == summaryTotal + SumKeys(counts, order)
      invariant repoTotal' == repoTotal + SumKeys(counts, order)
      invariant Visits(order, done)
      decreases rest
    {
      var severity :| severity in rest;
      var count := counts[severity];
      AddSeverityStep(severities, counts, done, order, severity, severities');
      severities' := severities'[severity := Get(severities', severity) + count];
      summaryTotal' := summaryTotal' + count;
      repoTotal' := repoTotal' + count;
      rest := rest - {severity};
      done := done + {severity};
      order := order + [severity];
    }
  }

  /** `order` lists the keys of `done`, each once. */
  ghost predicate Visits(order: seq<string>, done: set<string>)
  {
    && (forall k | k in order :: k in done)
    && (forall k | k in done :: k in order)
    && Distinct(order)
  }

  /** One more severity of the loop: its count joins the partial sums. */
  lemma AddSeverityStep(severities: map<string, int>, counts: map<string, int>, done: set<string>, order: seq<string>,
                        k: string, cur: map<string, int>)
    requires k in counts && k !in done && Visits(order, done)
    requires cur == AddKeys(severities, counts, order)
    ensures AddKeys(severities, counts, order + [k]) == cur[k := Get(cur, k) + counts[k]]
    ensures SumKeys(counts, order + [k]) == SumKeys(counts, order) + counts[k]
    ensures Visits(order + [k], done + {k})
  {
    AddKeysAppend(severities, counts, order, k, cur);
    SumKeysAppend(counts, order, k);
  }

  /** The reports of one team (the body of the team loop). */
  method CollateTeam(repos: seq<VulnerabilityRepository>) returns (reports: map<string, VulnerabilityReport>)
    ensures reports == TeamReportOf(repos)
  {
    reports := map[SummaryKey := NewVulnerabilityReport()];
    TeamReportPrefix(repos, 0);
    var i := 0;
    while i < |repos|
      invariant 0 <= i <= |repos|
      invariant reports == TeamReportOf(repos[..i])
    {
      reports := CollateRepo(reports, repos[i]);
      TeamReportPrefix(repos, i + 1);
      i := i + 1;
    }
    assert repos[..i] == repos;
  }

  /** The reports after the first `i` repositories, as the team loop builds them. */
  lemma TeamReportPrefix(repos: seq<VulnerabilityRepository>, i: nat)
    requires i <= |repos|
    ensures i == 0 ==> TeamReportOf(repos[..i]) == map[SummaryKey := NewVulnerabilityReport()]
    ensures i > 0 ==> TeamReportOf(repos[..i]) == NextTeamReport(TeamReportOf(repos[..i - 1]), repos[i - 1])
  {
    if i > 0 {
      assert repos[..i][..i - 1] == repos[..i - 1];
    } else {
      assert repos[..i] == [];
    }
  }

  /** One repository of a team: the summary entry updated, then the repository's own report written. */
  method CollateRepo(reports: map<string, VulnerabilityReport>, repo: VulnerabilityRepository)
    returns (reports': map<string, VulnerabilityReport>)
    ensures reports' == NextTeamReport(reports, repo)
  {
    var summaryReport := ReportAt(reports, SummaryKey);
    ghost var summary := summaryReport;
    summaryReport := summaryReport.(affectedRepos := summaryReport.affectedRepos + 1);
    var repoReport := NewVulnerabilityReport();
    var repoEcosystems := TallyVulnsByEcosystem(repo.nodes, repoReport.vulnsByEcosystem);
    var summaryEcosystems := TallyVulnsByEcosystem(repo.nodes, summaryReport.vulnsByEcosystem);
    var repoSeverities := TallyVulnsBySeverity(repo.nodes, repoReport.vulnsBySeverity);
    var severities, summaryTotal, repoTotal :=
      AddSeverityCounts(summaryReport.vulnsBySeverity, summaryReport.totalCount, repoReport.totalCount, repoSeverities);
    summaryReport := VulnerabilityReport(summaryTotal, summaryReport.affectedRepos, summaryEcosystems, severities);
    repoReport := VulnerabilityReport(repoTotal, 0, repoEcosystems, repoSeverities);
    reports' := reports[SummaryKey := summaryReport];
    reports' := reports'[repo.name := repoReport];
    CollateRepoStep(reports, repo, summary, repoEcosystems, summaryEcosystems, repoSeverities, severities, summaryTotal, repoTotal);
  }

  /** The writes of one repository, from the values the tallies and the severity loop leave behind. */
  lemma CollateRepoStep(reports: map<string, VulnerabilityReport>, repo: VulnerabilityRepository, summary: VulnerabilityReport,
                        repoEcosystems: map<string, int>, summaryEcosystems: map<string, int>,
                        repoSeverities: map<string, int>, severities: map<string, int>, summaryTotal: int, repoTotal: int)
    requires summary == ReportAt(reports, SummaryKey)
    requires repoEcosystems == Tally(map[], EcosystemLabels(repo.nodes))
    requires summaryEcosystems == Tally(summary.vulnsByEcosystem, EcosystemLabels(repo.nodes))
    requires repoSeverities == Tally(NewSeverityMap(), SeverityLabels(repo.nodes))
    requires severities == AddMaps(summary.vulnsBySeverity, repoSeverities)
    requires summaryTotal == summary.totalCount + MapSum(repoSeverities)
    requires repoTotal == 0 + MapSum(repoSeverities)
    ensures reports[SummaryKey := VulnerabilityReport(summaryTotal, summary.affectedRepos + 1, summaryEcosystems, severities)]
      [repo.name := VulnerabilityReport(repoTotal, 0, repoEcosystems, repoSeverities)]
      == NextTeamReport(reports, repo)
  {
    RepoReportFrom(repo, repoEcosystems, repoSeverities, repoTotal);
    SummaryAfterFrom(summary, repo, summaryEcosystems, repoSeverities, severities, summaryTotal);
  }

  lemma RepoReportFrom(repo: VulnerabilityRepository, repoEcosystems: map<string, int>, repoSeverities: map<string, int>,
                       repoTotal: int)
    requires repoEcosystems == Tally(map[], EcosystemLabels(repo.nodes))
    requires repoSeverities == Tally(NewSeverityMap(), SeverityLabels(repo.nodes))
    requires repoTotal == 0 + MapSum(repoSeverities)
    ensures VulnerabilityReport(repoTotal, 0, repoEcosystems, repoSeverities) == RepoReportOf(repo)
  {
  }

  lemma SummaryAfterFrom(summary: VulnerabilityReport, repo: VulnerabilityRepository, summaryEcosystems: map<string, int>,
                         repoSeverities: map<string, int>, severities: map<string, int>, summaryTotal: int)
    requires summaryEcosystems == Tally(summary.vulnsByEcosystem, EcosystemLabels(repo.nodes))
    requires repoSeverities == Tally(NewSeverityMap(), SeverityLabels(repo.nodes))
    requires severities == AddMaps(summary.vulnsBySeverity, repoSeverities)
    requires summaryTotal == summary.totalCount + MapSum(repoSeverities)
    ensures VulnerabilityReport(summaryTotal, summary.affectedRepos + 1, summaryEcosystems, severities)
      == SummaryAfter(summary, repo)
  {
  }

  /** Per team, the summary entry and one report per repository. */
  method CollateTeamReports(vulnsByTeam: map<string, seq<VulnerabilityRepository>>)
    returns (teamReports: map<string, map<string, VulnerabilityReport>>)
    ensures forall t :: t in teamReports <==> t in vulnsByTeam
    ensures forall t | t in teamReports :: teamReports[t] == TeamReportOf(vulnsByTeam[t])
  {
    teamReports := map[];
    var rest := vulnsByTeam.Keys;
    while rest != {}
      invariant rest <= vulnsByTeam.Keys
      invariant forall t :: t in teamReports <==> t in vulnsByTeam && t !in rest
      invariant forall t | t in teamReports :: teamReports[t] == TeamReportOf(vulnsByTeam[t])
      decreases rest
    {
      var team :| team in rest;
      var reports := CollateTeam(vulnsByTeam[team]);
      teamReports := teamReports[team := reports];
      rest := rest - {team};
    }
  }

  /** A repository's report counts each of its fetched alerts once, and its total is their number. */
  lemma RepoReportCounts(repo: VulnerabilityRepository)
    ensures var r := RepoReportOf(repo);
      r.totalCount == MapSum(r.vulnsBySeverity) == |repo.nodes|
      && MapSum(r.vulnsByEcosystem) == |repo.nodes|
      && r.vulnsBySeverity.Keys >= NewSeverityMap().Keys
  {
    TallySum(NewSeverityMap(), SeverityLabels(repo.nodes));
    MapSumZeros(NewSeverityMap());
    var none: map<string, int> := map[];
    TallySum(none, EcosystemLabels(repo.nodes));
    MapSumZeros(none);
  }

  /**
   * With no repository named like the summary entry, a team's summary counts each repository once
   * and holds the same tallies as the overall summary of the team's repositories; its total is the
   * sum of its severity tallies and the number of fetched alerts.
   */
  lemma TeamSummaryCounts(repos: seq<VulnerabilityRepository>)
    requires forall i | 0 <= i < |repos| :: repos[i].name != SummaryKey
    ensures SummaryKey in TeamReportOf(repos)
    ensures var s := TeamReportOf(repos)[SummaryKey];
      && s.affectedRepos == |repos|
      && s.vulnsBySeverity == SummaryReportOf(repos).vulnsBySeverity
      && s.vulnsByEcosystem == SummaryReportOf(repos).vulnsByEcosystem
      && s.totalCount == MapSum(s.vulnsBySeverity) == NodeCount(repos)
  {
    TeamSummaryAffected(repos);
    TeamSummaryEcosystems(repos);
    TeamSummarySeverities(repos);
    TeamSummaryTotal(repos);
    SummarySeveritySum(repos);
  }

  lemma {:induction false} TeamSummaryAffected(repos: seq<VulnerabilityRepository>)
    requires forall i | 0 <= i < |repos| :: repos[i].name != SummaryKey
    ensures SummaryKey in TeamReportOf(repos) && TeamReportOf(repos)[SummaryKey].affectedRepos == |repos|
  {
    if repos != [] {
      var init := repos[..|repos| - 1];
      var last := repos[|repos| - 1];
      TeamSummaryAffected(init);
      NextTeamReportSummary(TeamReportOf(init), last);
    }
  }

  lemma {:induction false} TeamSummaryEcosystems(repos: seq<VulnerabilityRepository>)
    requires forall i | 0 <= i < |repos| :: repos[i].name != SummaryKey
    ensures SummaryKey in TeamReportOf(repos)
      && TeamReportOf(repos)[SummaryKey].vulnsByEcosystem == Tally(map[], EcosystemLabels(AllNodes(repos)))
  {
    if repos == [] {
      var none: map<string, int> := map[];
      TallyEmpty(none);
    } else {
      var init := repos[..|repos| - 1];
      var last := repos[|repos| - 1];
      TeamSummaryEcosystems(init);
      NextTeamReportSummary(TeamReportOf(init), last);
      LabelsAppend(AllNodes(init), last.nodes);
      TallyAppend(map[], EcosystemLabels(AllNodes(init)), EcosystemLabels(last.nodes));
    }
  }

  lemma {:induction false} TeamSummarySeverities(repos: seq<VulnerabilityRepository>)
    requires forall i | 0 <= i < |repos| :: repos[i].name != SummaryKey
    ensures SummaryKey in TeamReportOf(repos)
      && TeamReportOf(repos)[SummaryKey].vulnsBySeverity == Tally(NewSeverityMap(), SeverityLabels(AllNodes(repos)))
  {
    if repos == [] {
      TallyEmpty(NewSeverityMap());
    } else {
      var init := repos[..|repos| - 1];
      var last := repos[|repos| - 1];
      TeamSummarySeverities(init);
      NextTeamReportSummary(TeamReportOf(init), last);
      LabelsAppend(AllNodes(init), last.nodes);
      NewSeverityMapShape();
      AddZeroBasedTallies(NewSeverityMap(), SeverityLabels(AllNodes(init)), SeverityLabels(last.nodes));
    }
  }

  lemma {:induction false} TeamSummaryTotal(repos: seq<VulnerabilityRepository>)
    requires forall i | 0 <= i < |repos| :: repos[i].name != SummaryKey
    ensures SummaryKey in TeamReportOf(repos) && TeamReportOf(repos)[SummaryKey].totalCount == NodeCount(repos)
  {
    if repos != [] {
      var init := repos[..|repos| - 1];
      var last := repos[|repos| - 1];
      TeamSummaryTotal(init);
      NextTeamReportSummary(TeamReportOf(init), last);
      RepoReportCounts(last);
    }
  }

  /**
   * The entry of a repository that no later repository of the team shares a name with, and that is
   * not named like the summary entry, is that repository's own report.
   */
  lemma {:induction false} TeamRepoEntry(repos: seq<VulnerabilityRepository>, i: nat)
    requires i < |repos| && repos[i].name != SummaryKey
    requires forall j | i < j < |repos| :: repos[j].name != repos[i].name
    ensures repos[i].name in TeamReportOf(repos)
    ensures TeamReportOf(repos)[repos[i].name] == RepoReportOf(repos[i])
  {
    if i < |repos| - 1 {
      var init := repos[..|repos| - 1];
      assert forall j | 0 <= j < |init| :: init[j] == repos[j];
      TeamRepoEntry(init, i);
      TeamReportKeeps(repos, repos[i].name);
    } else {
      TeamReportOwn(repos);
    }
  }

  /** The last repository of a team leaves every other key but the summary's as it was. */
  lemma TeamReportKeeps(repos: seq<VulnerabilityRepository>, key: string)
    requires repos != [] && key != SummaryKey && key != repos[|repos| - 1].name
    ensures key in TeamReportOf(repos) <==> key in TeamReportOf(repos[..|repos| - 1])
    ensures key in TeamReportOf(repos) ==> TeamReportOf(repos)[key] == TeamReportOf(repos[..|repos| - 1])[key]
  {
    NextTeamReportKeeps(TeamReportOf(repos[..|repos| - 1]), repos[|repos| - 1], key);
  }

  /** The last repository of a team has its own report under its name. */
  lemma TeamReportOwn(repos: seq<VulnerabilityRepository>)
    requires repos != []
    ensures repos[|repos| - 1].name in TeamReportOf(repos)
    ensures TeamReportOf(repos)[repos[|repos| - 1].name] == RepoReportOf(repos[|repos| - 1])
  {
    NextTeamReportOwn(TeamReportOf(repos[..|repos| - 1]), repos[|repos| - 1]);
  }

  lemma NextTeamReportKeeps(m: map<string, VulnerabilityReport>, repo: VulnerabilityRepository, key: string)
    requires key != SummaryKey && key != repo.name
    ensures key in NextTeamReport(m, repo) <==> key in m
    ensures key in m ==> NextTeamReport(m, repo)[key] == m[key]
  {
  }

  lemma NextTeamReportOwn(m: map<string, VulnerabilityReport>, repo: VulnerabilityRepository)
    ensures repo.name in NextTeamReport(m, repo)
    ensures NextTeamReport(m, repo)[repo.name] == RepoReportOf(repo)
  {
  }

  lemma NextTeamReportSummary(m: map<string, VulnerabilityReport>, repo: VulnerabilityRepository)
    requires repo.name != SummaryKey
    ensures SummaryKey in NextTeamReport(m, repo)
    ensures NextTeamReport(m, repo)[SummaryKey] == SummaryAfter(ReportAt(m, SummaryKey), repo)
  {
  }

  /**
   * A repository named "summary" overwrites its team's aggregate entry with its own report, so the
   * entry no longer counts the repository as affected.
   */
  lemma SummaryNamedRepoReplacesAggregate()
    ensures var reports := TeamReportOf([VulnerabilityRepository("summary", 0, [])]);
      SummaryKey in reports && reports[SummaryKey].affectedRepos == 0
  {
    var repos := [VulnerabilityRepository("summary", 0, [])];
    assert repos[..0] == [];
  }
}
