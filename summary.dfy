/**
 * The summariser (reporting/summary.go; internal/summary.go is an older copy of the same code):
 * severity and ecosystem tallies over the project collection, the highest-criticality rule, the
 * order in which a team's projects are reported, and the grouping of project summaries by team.
 *
 * The summariser only reads the collection, so it works on its value snapshot
 * (`ProjectCollection.Records()`).
 */
module Reporting {
  import opened Wrappers
  import opened Config
  import opened Tallies
  import opened Querying
  import Ascii

  /** The name of the synthetic per-team entry. */
  const SummaryKey := "summary"

  /** The severities every report shows, all at 0; Info and Undefined appear only when present. */
  function NewSeverityMap(): (m: map<Severity, int>)
    ensures m.Keys == {Critical, High, Moderate, Low}
    ensures forall s | s in m :: m[s] == 0
  {
    map[Critical := 0, High := 0, Moderate := 0, Low := 0]
  }

  /** Every severity once, most severe first. */
  function GetSeverityReportOrder(): (order: seq<Severity>)
    ensures |order| == 6
    ensures forall i | 0 <= i < |order| :: Rank(order[i]) == i
  {
    [Critical, High, Moderate, Low, Info, Undefined]
  }

  /** Each severity sits in the report order at its rank. */
  lemma ReportOrderPositions()
    ensures forall s: Severity :: GetSeverityReportOrder()[Rank(s)] == s
  {
    forall s: Severity ensures GetSeverityReportOrder()[Rank(s)] == s {
      RankInjective(GetSeverityReportOrder()[Rank(s)], s);
    }
  }

  datatype FindingSummary = FindingSummary(
    totalCount: int,
    affectedRepos: int,
    vulnsByEcosystem: map<Ecosystem, int>,
    vulnsBySeverity: map<Severity, int>)

  datatype ProjectFindingSummary = ProjectFindingSummary(summary: FindingSummary, name: string)

  /** No findings, no affected repositories, the four reported severities at 0. */
  function NewFindingSummary(): FindingSummary
  {
    FindingSummary(0, 0, map[], NewSeverityMap())
  }

  function NewProjectFindingSummary(name: string): ProjectFindingSummary
  {
    ProjectFindingSummary(NewFindingSummary(), name)
  }

  /** Go's `ProjectFindingSummary{}`: zero counts, nil maps (read as empty) and an empty name. */
  const ZeroProjectSummary := ProjectFindingSummary(FindingSummary(0, 0, map[], map[]), "")

  /** Does the tally hold a positive count for `s`? */
  predicate Counted(counts: map<Severity, int>, s: Severity)
  {
    s in counts && counts[s] > 0
  }

  /** The first severity of `order` with a positive count. */
  function FirstCounted(order: seq<Severity>, counts: map<Severity, int>): (r: Option<Severity>)
    ensures r.None? ==> forall i | 0 <= i < |order| :: !Counted(counts, order[i])
    ensures r.Some? ==>
      exists i | 0 <= i < |order| :: order[i] == r.value && Counted(counts, r.value)
        && forall j | 0 <= j < i :: !Counted(counts, order[j])
  {
    if order == [] then None
    else if Counted(counts, order[0]) then Some(order[0])
    else
      var r := FirstCounted(order[1..], counts);
      assert forall i | 1 <= i < |order| :: order[i] == order[1..][i - 1];
      r
  }

  /**
   * The most severe severity with a positive count, or Undefined if there is none: nothing more
   * severe is counted, and the result is counted unless it is Undefined.
   */
  function GetHighestCriticality(r: FindingSummary): (sev: Severity)
    ensures sev != Undefined ==> Counted(r.vulnsBySeverity, sev)
    ensures forall s | Rank(s) < Rank(sev) :: !Counted(r.vulnsBySeverity, s)
  {
    ReportOrderPositions();
    match FirstCounted(GetSeverityReportOrder(), r.vulnsBySeverity)
    case None => Undefined
    case Some(s) => s
  }

  /** The cases of the highest-criticality tests: one finding of each severity in turn, then none. */
  lemma HighestCriticalityOfOne(s: Severity)
    ensures GetHighestCriticality(FindingSummary(1, 1, map[], NewSeverityMap()[s := 1])) == s
    ensures GetHighestCriticality(NewFindingSummary()) == Undefined
  {
    var sev := GetHighestCriticality(FindingSummary(1, 1, map[], NewSeverityMap()[s := 1]));
    if sev != s {
      if Rank(s) < Rank(sev) {
        assert Counted(NewSeverityMap()[s := 1], s);
      } else {
        RankInjective(s, sev);
      }
    }
  }

  /** TeamProjectCollection.Less: by highest criticality, most severe first, then by name. */
  predicate Less(a: ProjectFindingSummary, b: ProjectFindingSummary)
  {
    var sevOne := GetHighestCriticality(a.summary);
    var sevTwo := GetHighestCriticality(b.summary);
    if sevOne != sevTwo then Rank(sevOne) < Rank(sevTwo) else Ascii.LexLess(a.name, b.name)
  }

  lemma LessIrreflexive(a: ProjectFindingSummary)
    ensures !Less(a, a)
  {
    Ascii.LexLessIrreflexive(a.name);
  }

  lemma LessTransitive(a: ProjectFindingSummary, b: ProjectFindingSummary, c: ProjectFindingSummary)
    requires Less(a, b) && Less(b, c)
    ensures Less(a, c)
  {
    var sa, sb, sc := GetHighestCriticality(a.summary), GetHighestCriticality(b.summary), GetHighestCriticality(c.summary);
    if sa == sb && sb == sc {
      Ascii.LexLessTransitive(a.name, b.name, c.name);
    } else if sa == sc {
      RankInjective(sa, sb);
    }
  }

  /** Two summaries neither of which sorts first have the same criticality and the same name. */
  lemma LessTotal(a: ProjectFindingSummary, b: ProjectFindingSummary)
    requires !Less(a, b) && !Less(b, a)
    ensures GetHighestCriticality(a.summary) == GetHighestCriticality(b.summary) && a.name == b.name
  {
    var sa, sb := GetHighestCriticality(a.summary), GetHighestCriticality(b.summary);
    if sa != sb {
      RankInjective(sa, sb);
    } else if a.name != b.name {
      Ascii.LexLessTotal(a.name, b.name);
    }
  }

  /**
   * The sort test: "bar" and "foo" both hold a Critical finding and "baz" only a Moderate one, so
   * the order is bar, foo, baz.
   */
  lemma SortFixture()
    ensures var foo := ProjectFindingSummary(FindingSummary(2, 1, map[], NewSeverityMap()[Critical := 1][High := 1]), "foo");
      var bar := ProjectFindingSummary(FindingSummary(2, 1, map[], NewSeverityMap()[Critical := 1][Info := 1]), "bar");
      var baz := ProjectFindingSummary(FindingSummary(1, 1, map[], NewSeverityMap()[Moderate := 1]), "baz");
      Less(bar, foo) && Less(foo, baz) && Less(bar, baz)
  {
    var foo := ProjectFindingSummary(FindingSummary(2, 1, map[], NewSeverityMap()[Critical := 1][High := 1]), "foo");
    var bar := ProjectFindingSummary(FindingSummary(2, 1, map[], NewSeverityMap()[Critical := 1][Info := 1]), "bar");
    var baz := ProjectFindingSummary(FindingSummary(1, 1, map[], NewSeverityMap()[Moderate := 1]), "baz");
    assert Counted(foo.summary.vulnsBySeverity, Critical);
    assert Counted(bar.summary.vulnsBySeverity, Critical);
    assert Counted(baz.summary.vulnsBySeverity, Moderate);
    assert !Counted(baz.summary.vulnsBySeverity, Critical) && !Counted(baz.summary.vulnsBySeverity, High);
  }

  // ----- SummarizeFindings -----

  /** Every finding of every project, project by project. */
  function AllFindings(recs: seq<ProjectRecord>): seq<FindingRecord>
  {
    if recs == [] then [] else AllFindings(recs[..|recs| - 1]) + recs[|recs| - 1].findings
  }

  function SeveritiesOf(fs: seq<FindingRecord>): (r: seq<Severity>)
    ensures |r| == |fs| && forall i | 0 <= i < |fs| :: r[i] == fs[i].severity
  {
    seq(|fs|, i requires 0 <= i < |fs| => fs[i].severity)
  }

  function EcosystemsOf(fs: seq<FindingRecord>): (r: seq<Ecosystem>)
    ensures |r| == |fs| && forall i | 0 <= i < |fs| :: r[i] == fs[i].ecosystem
  {
    seq(|fs|, i requires 0 <= i < |fs| => fs[i].ecosystem)
  }

  /** The number of projects with at least one finding. */
  function AffectedCount(recs: seq<ProjectRecord>): nat
  {
    if recs == [] then 0
    else AffectedCount(recs[..|recs| - 1]) + (if |recs[|recs| - 1].findings| > 0 then 1 else 0)
  }

  /** The report of one project: all zero without findings; otherwise one affected repository and its tallies. */
  function ProjectSummaryOf(p: ProjectRecord): ProjectFindingSummary
  {
    if |p.findings| == 0 then NewProjectFindingSummary(p.name)
    else ProjectFindingSummary(
      FindingSummary(|p.findings|, 1, Tally(map[], EcosystemsOf(p.findings)), Tally(NewSeverityMap(), SeveritiesOf(p.findings))),
      p.name)
  }

  /** The overall report: every finding counted once in each tally. */
  function OverallSummaryOf(recs: seq<ProjectRecord>): FindingSummary
  {
    var all := AllFindings(recs);
    FindingSummary(|all|, AffectedCount(recs), Tally(map[], EcosystemsOf(all)), Tally(NewSeverityMap(), SeveritiesOf(all)))
  }

  lemma SeveritiesAppend(a: seq<FindingRecord>, b: seq<FindingRecord>)
    ensures SeveritiesOf(a + b) == SeveritiesOf(a) + SeveritiesOf(b)
    ensures EcosystemsOf(a + b) == EcosystemsOf(a) + EcosystemsOf(b)
  {
    assert SeveritiesOf(a + b) == SeveritiesOf(a) + SeveritiesOf(b) by {
      forall i | 0 <= i < |a + b| ensures SeveritiesOf(a + b)[i] == (SeveritiesOf(a) + SeveritiesOf(b))[i] {
        if i >= |a| { assert (a + b)[i] == b[i - |a|]; }
      }
    }
    assert EcosystemsOf(a + b) == EcosystemsOf(a) + EcosystemsOf(b) by {
      forall i | 0 <= i < |a + b| ensures EcosystemsOf(a + b)[i] == (EcosystemsOf(a) + EcosystemsOf(b))[i] {
        if i >= |a| { assert (a + b)[i] == b[i - |a|]; }
      }
    }
  }

  /** Tallying one more finding is one more increment of each tally. */
  lemma TallyFindingStep(before: seq<FindingRecord>, fs: seq<FindingRecord>, j: nat)
    requires j < |fs|
    ensures Tally(map[], EcosystemsOf(before + fs[..j + 1])) == Inc(Tally(map[], EcosystemsOf(before + fs[..j])), fs[j].ecosystem)
    ensures Tally(NewSeverityMap(), SeveritiesOf(before + fs[..j + 1])) == Inc(Tally(NewSeverityMap(), SeveritiesOf(before + fs[..j])), fs[j].severity)
  {
    var prefix := before + fs[..j];
    assert before + fs[..j + 1] == prefix + [fs[j]];
    SeveritiesAppend(prefix, [fs[j]]);
    var ecos := EcosystemsOf(prefix);
    var sevs := SeveritiesOf(prefix);
    assert EcosystemsOf(before + fs[..j + 1]) == ecos + [fs[j].ecosystem];
    assert SeveritiesOf(before + fs[..j + 1]) == sevs + [fs[j].severity];
    TallyStep(map[], ecos, fs[j].ecosystem);
    TallyStep(NewSeverityMap(), sevs, fs[j].severity);
  }

  /** Both tallies of `s` count exactly the findings `fs`. */
  ghost predicate TalliesOf(s: FindingSummary, fs: seq<FindingRecord>)
  {
    s.vulnsByEcosystem == Tally(map[], EcosystemsOf(fs)) && s.vulnsBySeverity == Tally(NewSeverityMap(), SeveritiesOf(fs))
  }

  /** The inner loop of SummarizeFindings: each finding of a project counted in the overall and in the project report. */
  method TallyFindings(summary: FindingSummary, report: FindingSummary, ghost before: seq<FindingRecord>, findings: seq<FindingRecord>)
    returns (summary': FindingSummary, report': FindingSummary)
    requires TalliesOf(summary, before) && TalliesOf(report, [])
    ensures TalliesOf(summary', before + findings) && TalliesOf(report', findings)
    ensures summary'.totalCount == summary.totalCount && summary'.affectedRepos == summary.affectedRepos
    ensures report'.totalCount == report.totalCount && report'.affectedRepos == report.affectedRepos
  {
    summary', report' := summary, report;
    var j := 0;
    assert before + findings[..0] == before && findings[..0] == [];
    while j < |findings|
      invariant 0 <= j <= |findings|
      invariant TalliesOf(summary', before + findings[..j]) && TalliesOf(report', findings[..j])
      invariant summary'.totalCount == summary.totalCount && summary'.affectedRepos == summary.affectedRepos
      invariant report'.totalCount == report.totalCount && report'.affectedRepos == report.affectedRepos
    {
      var finding := findings[j];
      TallyFindingStep(before, findings, j);
      TallyFindingStep([], findings, j);
      assert [] + findings[..j] == findings[..j];
      assert [] + findings[..j + 1] == findings[..j + 1];
      summary' := summary'.(
        vulnsByEcosystem := Inc(summary'.vulnsByEcosystem, finding.ecosystem),
        vulnsBySeverity := Inc(summary'.vulnsBySeverity, finding.severity));
      report' := report'.(
        vulnsByEcosystem := Inc(report'.vulnsByEcosystem, finding.ecosystem),
        vulnsBySeverity := Inc(report'.vulnsBySeverity, finding.severity));
      j := j + 1;
    }
    assert findings[..j] == findings;
  }

  /**
   * One pass of SummarizeFindings' project loop: the project's report, and its findings added to the
   * overall tallies.
   */
  method SummarizeProject(summary: FindingSummary, ghost before: seq<FindingRecord>, project: ProjectRecord)
    returns (summary': FindingSummary, projectReport: ProjectFindingSummary)
    requires TalliesOf(summary, before)
    ensures TalliesOf(summary', before + project.findings)
    ensures summary'.totalCount == summary.totalCount && summary'.affectedRepos == summary.affectedRepos
    ensures projectReport == ProjectSummaryOf(project)
  {
    summary' := summary;
    projectReport := NewProjectFindingSummary(project.name);
    var numFindings := |project.findings|;
    if numFindings > 0 {
      projectReport := projectReport.(summary := projectReport.summary.(affectedRepos := 1, totalCount := numFindings));
      var projectTallies;
      summary', projectTallies := TallyFindings(summary, projectReport.summary, before, project.findings);
      projectReport := projectReport.(summary := projectTallies);
    } else {
      assert before + project.findings == before;
    }
  }

  /** The per-project reports, in collection order. */
  function ProjectReportsOf(recs: seq<ProjectRecord>): (r: seq<ProjectFindingSummary>)
    ensures |r| == |recs| && forall i | 0 <= i < |recs| :: r[i] == ProjectSummaryOf(recs[i])
  {
    if recs == [] then []
    else
      var init := recs[..|recs| - 1];
      assert forall i | 0 <= i < |init| :: init[i] == recs[i];
      ProjectReportsOf(init) + [ProjectSummaryOf(recs[|recs| - 1])]
  }

  /** SummarizeFindings: the overall report and one report per project, in collection order. */
  method SummarizeFindings(recs: seq<ProjectRecord>) returns (summary: FindingSummary, reports: seq<ProjectFindingSummary>)
    ensures summary == OverallSummaryOf(recs)
    ensures |reports| == |recs| && forall i | 0 <= i < |recs| :: reports[i] == ProjectSummaryOf(recs[i])
  {
    var affectedRepos, vulnCount := 0, 0;
    summary := NewFindingSummary();
    reports := [];
    var i := 0;
    while i < |recs|
      invariant 0 <= i <= |recs|
      invariant affectedRepos == AffectedCount(recs[..i]) && vulnCount == |AllFindings(recs[..i])|
      invariant TalliesOf(summary, AllFindings(recs[..i]))
      invariant reports == ProjectReportsOf(recs[..i])
    {
      var project := recs[i];
      assert recs[..i + 1][..i] == recs[..i];
      var numFindings := |project.findings|;
      if numFindings > 0 {
        affectedRepos := affectedRepos + 1;
        vulnCount := vulnCount + numFindings;
      }
      var projectReport;
      summary, projectReport := SummarizeProject(summary, AllFindings(recs[..i]), project);
      assert ProjectReportsOf(recs[..i + 1]) == ProjectReportsOf(recs[..i]) + [projectReport];
      reports := reports + [projectReport];
      i := i + 1;
    }
    assert recs[..i] == recs;
    summary := summary.(affectedRepos := affectedRepos, totalCount := vulnCount);
  }

  /** Each tally of the overall report sums to its total count. */
  lemma OverallTalliesAddUp(recs: seq<ProjectRecord>)
    ensures var s := OverallSummaryOf(recs);
      MapSum(s.vulnsBySeverity) == s.totalCount && MapSum(s.vulnsByEcosystem) == s.totalCount
  {
    var all := AllFindings(recs);
    TallySum(NewSeverityMap(), SeveritiesOf(all));
    TallySum(map[], EcosystemsOf(all));
    MapSumZeros(NewSeverityMap());
    var none: map<Ecosystem, int> := map[];
    MapSumZeros(none);
  }

  /**
   * A project's report is named after it. Without findings it is the zero report; otherwise it
   * counts one affected repository and its findings, and each tally sums to that count.
   */
  lemma ProjectSummaryShape(p: ProjectRecord)
    ensures var r := ProjectSummaryOf(p);
      r.name == p.name && r.summary.totalCount == |p.findings|
      && (|p.findings| == 0 ==> r == NewProjectFindingSummary(p.name))
      && (|p.findings| > 0 ==> r.summary.affectedRepos == 1)
      && MapSum(r.summary.vulnsBySeverity) == |p.findings|
      && MapSum(r.summary.vulnsByEcosystem) == |p.findings|
  {
    TallySum(NewSeverityMap(), SeveritiesOf(p.findings));
    TallySum(map[], EcosystemsOf(p.findings));
    MapSumZeros(NewSeverityMap());
    var none: map<Ecosystem, int> := map[];
    MapSumZeros(none);
  }

  /** The sum of the total counts of a list of reports. */
  function TotalOf(sums: seq<ProjectFindingSummary>): int
  {
    if sums == [] then 0 else TotalOf(sums[..|sums| - 1]) + sums[|sums| - 1].summary.totalCount
  }

  /** The sum of the affected-repository counts of a list of reports. */
  function AffectedOf(sums: seq<ProjectFindingSummary>): int
  {
    if sums == [] then 0 else AffectedOf(sums[..|sums| - 1]) + sums[|sums| - 1].summary.affectedRepos
  }

  /** The overall counts are the sums of the per-project counts. */
  lemma {:induction false} OverallIsSumOfProjects(recs: seq<ProjectRecord>, reports: seq<ProjectFindingSummary>)
    requires |reports| == |recs| && forall i | 0 <= i < |recs| :: reports[i] == ProjectSummaryOf(recs[i])
    ensures TotalOf(reports) == OverallSummaryOf(recs).totalCount
    ensures AffectedOf(reports) == OverallSummaryOf(recs).affectedRepos
  {
    if recs != [] {
      var n := |recs| - 1;
      OverallIsSumOfProjects(recs[..n], reports[..n]);
    }
  }

  /** The summary tests' collection: "foo" and "bar" with two findings each and an empty "baz". */
  function FixtureProjects(): seq<ProjectRecord>
  {
    [ ProjectRecord("foo", [FindingRecord(map["CVE" := "CVE-1"], "go", Critical, "", ""),
                            FindingRecord(map["CVE" := "CVE-2"], "python", High, "", "")], map[], {}),
      ProjectRecord("bar", [FindingRecord(map["CVE" := "CVE-3"], "go", Info, "", ""),
                            FindingRecord(map["CVE" := "CVE-4"], "js", Critical, "", "")], map[], {}),
      ProjectRecord("baz", [], map[], {}) ]
  }

  /**
   * The overall report of the fixture: 4 findings in 2 repositories, two in Go, one in JavaScript
   * and one in Python, two Critical, one High and one Info on top of the zeroed severities.
   */
  lemma SummarizeFixture()
    ensures OverallSummaryOf(FixtureProjects()).totalCount == 4
    ensures OverallSummaryOf(FixtureProjects()).affectedRepos == 2
    ensures OverallSummaryOf(FixtureProjects()).vulnsByEcosystem == map["go" := 2, "js" := 1, "python" := 1]
    ensures OverallSummaryOf(FixtureProjects()).vulnsBySeverity
      == NewSeverityMap()[Critical := 2][High := 1][Info := 1]
    ensures ProjectSummaryOf(FixtureProjects()[2]) == NewProjectFindingSummary("baz")
  {
    var recs := FixtureProjects();
    assert recs[..1][..0] == [];
    assert recs[..2][..1] == recs[..1];
    assert recs[..3][..2] == recs[..2];
    assert recs[..3] == recs;
    assert AllFindings(recs[..1]) == recs[0].findings;
    assert AllFindings(recs[..2]) == recs[0].findings + recs[1].findings;
    assert AffectedCount(recs[..1]) == 1;
    assert AffectedCount(recs[..2]) == 2;
    var all := AllFindings(recs);
    assert all == recs[0].findings + recs[1].findings;
    assert EcosystemsOf(all) == ["go", "python", "go", "js"];
    assert SeveritiesOf(all) == [Critical, High, Info, Critical];
    FixtureEcosystemTally();
    FixtureSeverityTally();
  }

  /** The fixture's ecosystems, one `+= 1` at a time. */
  lemma FixtureEcosystemTally()
    ensures Tally(map[], ["go", "python", "go", "js"]) == map["go" := 2, "js" := 1, "python" := 1]
  {
    var e: map<Ecosystem, int> := map[];
    TallyEmpty(e);
    TallyThrough(e, [], "go", ["go"], e, map["go" := 1]);
    TallyThrough(e, ["go"], "python", ["go", "python"], map["go" := 1], map["go" := 1, "python" := 1]);
    TallyThrough(e, ["go", "python"], "go", ["go", "python", "go"],
                 map["go" := 1, "python" := 1], map["go" := 2, "python" := 1]);
    TallyThrough(e, ["go", "python", "go"], "js", ["go", "python", "go", "js"],
                 map["go" := 2, "python" := 1], map["go" := 2, "js" := 1, "python" := 1]);
  }

  /** The fixture's severities, one `+= 1` at a time on the zeroed severity map. */
  lemma FixtureSeverityTally()
    ensures Tally(NewSeverityMap(), [Critical, High, Info, Critical]) == NewSeverityMap()[Critical := 2][High := 1][Info := 1]
  {
    var b := NewSeverityMap();
    TallyEmpty(b);
    TallyThrough(b, [], Critical, [Critical], b, b[Critical := 1]);
    TallyThrough(b, [Critical], High, [Critical, High], b[Critical := 1], b[Critical := 1][High := 1]);
    TallyThrough(b, [Critical, High], Info, [Critical, High, Info],
                 b[Critical := 1][High := 1], b[Critical := 1][High := 1][Info := 1]);
    TallyThrough(b, [Critical, High, Info], Critical, [Critical, High, Info, Critical],
                 b[Critical := 1][High := 1][Info := 1], b[Critical := 2][High := 1][Info := 1]);
  }


  // ----- GroupTeamFindings -----

  /** The summary of the first entry named `name`, or Go's zero summary when there is none. */
  function SummaryFor(name: string, sums: seq<ProjectFindingSummary>): (r: ProjectFindingSummary)
    ensures (forall i | 0 <= i < |sums| :: sums[i].name != name) ==> r == ZeroProjectSummary
    ensures (exists i | 0 <= i < |sums| :: sums[i].name == name) ==>
      exists i | 0 <= i < |sums| :: sums[i] == r && r.name == name && forall j | 0 <= j < i :: sums[j].name != name
  {
    if sums == [] then ZeroProjectSummary
    else if sums[0].name == name then sums[0]
    else
      var r := SummaryFor(name, sums[1..]);
      assert forall i | 1 <= i < |sums| :: sums[i] == sums[1..][i - 1];
      r
  }

  /** Every team owning at least one of the projects. */
  function OwnerSet(recs: seq<ProjectRecord>): set<TeamConfig>
  {
    if recs == [] then {} else OwnerSet(recs[..|recs| - 1]) + recs[|recs| - 1].owners
  }

  /** The summaries of the projects `team` owns, in collection order. */
  function OwnedSummaries(recs: seq<ProjectRecord>, sums: seq<ProjectFindingSummary>, team: TeamConfig): seq<ProjectFindingSummary>
  {
    if recs == [] then []
    else
      var last := recs[|recs| - 1];
      OwnedSummaries(recs[..|recs| - 1], sums, team) + (if team in last.owners then [SummaryFor(last.name, sums)] else [])
  }

  /** Each owning team with the summaries of its projects. */
  function Grouped(recs: seq<ProjectRecord>, sums: seq<ProjectFindingSummary>): map<TeamConfig, seq<ProjectFindingSummary>>
  {
    map team | team in OwnerSet(recs) :: OwnedSummaries(recs, sums, team)
  }

  lemma {:induction false} OwnerSetMembers(recs: seq<ProjectRecord>, team: TeamConfig)
    ensures team in OwnerSet(recs) <==> exists i | 0 <= i < |recs| :: team in recs[i].owners
  {
    if recs != [] {
      var n := |recs| - 1;
      OwnerSetMembers(recs[..n], team);
      if team in OwnerSet(recs[..n]) {
        var i :| 0 <= i < n && team in recs[..n][i].owners;
        assert team in recs[i].owners;
      }
      if exists i | 0 <= i < |recs| :: team in recs[i].owners {
        var i :| 0 <= i < |recs| && team in recs[i].owners;
        if i < n { assert team in recs[..n][i].owners; }
      }
    }
  }

  lemma {:induction false} OwnedSummariesOfStranger(recs: seq<ProjectRecord>, sums: seq<ProjectFindingSummary>, team: TeamConfig)
    requires team !in OwnerSet(recs)
    ensures OwnedSummaries(recs, sums, team) == []
  {
    if recs != [] {
      OwnedSummariesOfStranger(recs[..|recs| - 1], sums, team);
    }
  }

  /** A team's list holds the summary of each project it owns, and only summaries of projects it owns. */
  lemma {:induction false} OwnedSummariesMembers(recs: seq<ProjectRecord>, sums: seq<ProjectFindingSummary>, team: TeamConfig)
    ensures forall i | 0 <= i < |recs| && team in recs[i].owners :: SummaryFor(recs[i].name, sums) in OwnedSummaries(recs, sums, team)
    ensures forall s | s in OwnedSummaries(recs, sums, team) ::
      exists i | 0 <= i < |recs| :: team in recs[i].owners && s == SummaryFor(recs[i].name, sums)
  {
    if recs != [] {
      var n := |recs| - 1;
      var init := recs[..n];
      OwnedSummariesMembers(init, sums, team);
      forall i | 0 <= i < |recs| && team in recs[i].owners ensures SummaryFor(recs[i].name, sums) in OwnedSummaries(recs, sums, team) {
        if i < n { assert recs[i] == init[i]; }
      }
      forall s | s in OwnedSummaries(recs, sums, team)
        ensures exists i | 0 <= i < |recs| :: team in recs[i].owners && s == SummaryFor(recs[i].name, sums)
      {
        if s in OwnedSummaries(init, sums, team) {
          var i :| 0 <= i < n && team in init[i].owners && s == SummaryFor(init[i].name, sums);
          assert recs[i] == init[i];
        } else {
          assert team in recs[n].owners && s == SummaryFor(recs[n].name, sums);
        }
      }
    }
  }

  /**
   * internal/summary.go's GroupTeamFindings, which is also the first loop of reporting's: each
   * owning team with the summaries of its projects, in collection order.
   */
  method GroupOwnedSummaries(recs: seq<ProjectRecord>, sums: seq<ProjectFindingSummary>)
    returns (teams: map<TeamConfig, seq<ProjectFindingSummary>>)
    ensures teams == Grouped(recs, sums)
  {
    teams := map[];
    var i := 0;
    while i < |recs|
      invariant 0 <= i <= |recs|
      invariant teams.Keys == OwnerSet(recs[..i])
      invariant forall t | t in teams :: teams[t] == OwnedSummaries(recs[..i], sums, t)
    {
      var project := recs[i];
      ghost var init := recs[..i];
      assert recs[..i + 1][..i] == init;
      var projectSummary := FindSummary(project.name, sums);
      ghost var prior := teams;
      teams := AddToOwners(teams, project.owners, projectSummary);
      forall t | t in teams ensures teams[t] == OwnedSummaries(recs[..i + 1], sums, t) {
        if t !in prior {
          OwnedSummariesOfStranger(init, sums, t);
        }
      }
      assert teams.Keys == OwnerSet(recs[..i + 1]);
      i := i + 1;
    }
    assert recs[..i] == recs;
    assert teams == Grouped(recs, sums);
  }

  /** The summary search of GroupTeamFindings: the first summary named `name`, else the zero summary. */
  method FindSummary(name: string, sums: seq<ProjectFindingSummary>) returns (projectSummary: ProjectFindingSummary)
    ensures projectSummary == SummaryFor(name, sums)
  {
    projectSummary := ZeroProjectSummary;
    var k := 0;
    while k < |sums|
      invariant 0 <= k <= |sums|
      invariant forall j | 0 <= j < k :: sums[j].name != name
      invariant projectSummary == ZeroProjectSummary
    {
      if sums[k].name == name {
        projectSummary := sums[k];
        assert SummaryFor(name, sums) == sums[k];
        break;
      }
      k := k + 1;
    }
  }

  /** The owner loop of GroupTeamFindings: `s` appended to the list of each of `owners`, a missing list read as empty. */
  method AddToOwners(teams: map<TeamConfig, seq<ProjectFindingSummary>>, owners: set<TeamConfig>, s: ProjectFindingSummary)
    returns (teams': map<TeamConfig, seq<ProjectFindingSummary>>)
    ensures forall t :: t in teams' <==> t in teams || t in owners
    ensures forall t | t in teams' :: teams'[t] == ListOf(teams, t) + (if t in owners then [s] else [])
  {
    teams' := teams;
    var rest := owners;
    while rest != {}
      invariant rest <= owners
      invariant forall t :: t in teams' <==> t in teams || (t in owners && t !in rest)
      invariant forall t | t in teams' :: teams'[t] == ListOf(teams, t) + (if t in owners && t !in rest then [s] else [])
      decreases |rest|
    {
      var owner :| owner in rest;
      var current := ListOf(teams', owner);
      assert current == ListOf(teams, owner) + [];
      teams' := teams'[owner := current + [s]];
      rest := rest - {owner};
    }
  }

  /** A team's list, a missing one read as empty (Go's nil slice). */
  function ListOf(teams: map<TeamConfig, seq<ProjectFindingSummary>>, t: TeamConfig): seq<ProjectFindingSummary>
  {
    if t in teams then teams[t] else []
  }

  /** The synthetic entry closing a team's list: named SummaryKey, totalling the list's counts. */
  function TeamSummary(projects: seq<ProjectFindingSummary>): ProjectFindingSummary
  {
    NewProjectFindingSummary(SummaryKey).(summary := NewFindingSummary().(totalCount := TotalOf(projects)))
  }

  function WithTeamSummaries(grouped: map<TeamConfig, seq<ProjectFindingSummary>>): map<TeamConfig, seq<ProjectFindingSummary>>
  {
    map team | team in grouped :: grouped[team] + [TeamSummary(grouped[team])]
  }

  /** The summary entry of one team: SummaryKey, with the total of its projects' total counts. */
  method TeamSummaryReport(projects: seq<ProjectFindingSummary>) returns (summaryReport: ProjectFindingSummary)
    ensures summaryReport == TeamSummary(projects)
  {
    summaryReport := NewProjectFindingSummary(SummaryKey);
    var k := 0;
    while k < |projects|
      invariant 0 <= k <= |projects|
      invariant summaryReport == TeamSummary(projects[..k])
    {
      assert projects[..k + 1][..k] == projects[..k];
      summaryReport := summaryReport.(summary := summaryReport.summary.(totalCount := summaryReport.summary.totalCount + projects[k].summary.totalCount));
      k := k + 1;
    }
    assert projects[..k] == projects;
  }

  /** `teamProjects` is `grouped` with the summary entry added for every team not in `rest`. */
  predicate SummariesAddedBut(teamProjects: map<TeamConfig, seq<ProjectFindingSummary>>,
                              grouped: map<TeamConfig, seq<ProjectFindingSummary>>, rest: set<TeamConfig>)
  {
    rest <= grouped.Keys && teamProjects.Keys == grouped.Keys
    && forall t | t in teamProjects ::
         teamProjects[t] == if t in rest then grouped[t] else grouped[t] + [TeamSummary(grouped[t])]
  }

  /** Adding the summary entry of one more team. */
  lemma SummaryAdded(teamProjects: map<TeamConfig, seq<ProjectFindingSummary>>,
                     grouped: map<TeamConfig, seq<ProjectFindingSummary>>, rest: set<TeamConfig>, team: TeamConfig)
    requires SummariesAddedBut(teamProjects, grouped, rest) && team in rest
    ensures SummariesAddedBut(teamProjects[team := grouped[team] + [TeamSummary(grouped[team])]], grouped, rest - {team})
  {
    var next := teamProjects[team := grouped[team] + [TeamSummary(grouped[team])]];
    forall t | t in next
      ensures next[t] == if t in rest - {team} then grouped[t] else grouped[t] + [TeamSummary(grouped[t])]
    {
      if t != team {
        assert next[t] == teamProjects[t];
      }
    }
  }

  /** Once every team has its entry, the map is the grouping with team summaries. */
  lemma SummariesAddedAll(teamProjects: map<TeamConfig, seq<ProjectFindingSummary>>, grouped: map<TeamConfig, seq<ProjectFindingSummary>>)
    requires SummariesAddedBut(teamProjects, grouped, {})
    ensures teamProjects == WithTeamSummaries(grouped)
  {
    var expected := WithTeamSummaries(grouped);
    assert teamProjects.Keys == expected.Keys;
    assert forall t | t in teamProjects :: teamProjects[t] == expected[t];
  }

  /** reporting/summary.go's GroupTeamFindings: the grouping, then one summary entry per team. */
  method GroupTeamFindings(recs: seq<ProjectRecord>, sums: seq<ProjectFindingSummary>)
    returns (teamProjects: map<TeamConfig, seq<ProjectFindingSummary>>)
    ensures teamProjects == WithTeamSummaries(Grouped(recs, sums))
  {
    var grouped := GroupOwnedSummaries(recs, sums);
    teamProjects := grouped;
    var rest := grouped.Keys;
    while rest != {}
      invariant SummariesAddedBut(teamProjects, grouped, rest)
      decreases |rest|
    {
      var team :| team in rest;
      var projects := teamProjects[team];
      var summaryReport := TeamSummaryReport(projects);
      SummaryAdded(teamProjects, grouped, rest, team);
      teamProjects := teamProjects[team := projects + [summaryReport]];
      rest := rest - {team};
    }
    SummariesAddedAll(teamProjects, grouped);
  }

  /**
   * The teams keyed in the grouping are exactly the owners of some project; each team's list holds
   * its projects' summaries and ends in one entry named SummaryKey whose total is their sum.
   */
  lemma TeamListsEndInSummary(recs: seq<ProjectRecord>, sums: seq<ProjectFindingSummary>, team: TeamConfig)
    ensures team in WithTeamSummaries(Grouped(recs, sums)) <==> exists i | 0 <= i < |recs| :: team in recs[i].owners
    ensures team in WithTeamSummaries(Grouped(recs, sums)) ==>
      var list := WithTeamSummaries(Grouped(recs, sums))[team];
      |list| > 0 && list[..|list| - 1] == OwnedSummaries(recs, sums, team)
      && list[|list| - 1].name == SummaryKey
      && list[|list| - 1].summary.totalCount == TotalOf(OwnedSummaries(recs, sums, team))
  {
    OwnerSetMembers(recs, team);
    if team in OwnerSet(recs) {
      var list := WithTeamSummaries(Grouped(recs, sums))[team];
      assert list[..|list| - 1] == OwnedSummaries(recs, sums, team);
    }
  }

  /** When none of a team's projects is itself named "summary", its list has exactly one entry of that name. */
  lemma OneSummaryEntry(recs: seq<ProjectRecord>, sums: seq<ProjectFindingSummary>, team: TeamConfig)
    requires team in WithTeamSummaries(Grouped(recs, sums))
    requires forall i | 0 <= i < |recs| :: recs[i].name != SummaryKey
    ensures var list := WithTeamSummaries(Grouped(recs, sums))[team];
      forall j | 0 <= j < |list| - 1 :: list[j].name != SummaryKey
  {
    var list := WithTeamSummaries(Grouped(recs, sums))[team];
    OwnedSummariesMembers(recs, sums, team);
    forall j | 0 <= j < |list| - 1 ensures list[j].name != SummaryKey {
      assert list[j] in OwnedSummaries(recs, sums, team);
      var i :| 0 <= i < |recs| && team in recs[i].owners && list[j] == SummaryFor(recs[i].name, sums);
      if exists k | 0 <= k < |sums| :: sums[k].name == recs[i].name {
        assert list[j].name == recs[i].name;
      }
    }
  }

  const FixtureTeamFoo := TeamConfig("Team Foo", "foo", "")
  const FixtureTeamBar := TeamConfig("Team Bar", "bar", "")
  const FixtureTeamBaz := TeamConfig("The team known as Baz", "baz", "")

  /** The grouping test's collection: "foo" is owned by three teams, "bar" by two, "baz" by one. */
  function GroupFixtureProjects(): seq<ProjectRecord>
  {
    [ ProjectRecord("foo", [], map[], {FixtureTeamFoo, FixtureTeamBar, FixtureTeamBaz}),
      ProjectRecord("bar", [], map[], {FixtureTeamBar, FixtureTeamBaz}),
      ProjectRecord("baz", [], map[], {FixtureTeamBaz}) ]
  }

  function GroupFixtureSummaries(): seq<ProjectFindingSummary>
  {
    [NewProjectFindingSummary("foo"), NewProjectFindingSummary("bar"), NewProjectFindingSummary("baz")]
  }

  lemma GroupFixtureSearch()
    ensures var sums := GroupFixtureSummaries();
      SummaryFor("foo", sums) == sums[0] && SummaryFor("bar", sums) == sums[1] && SummaryFor("baz", sums) == sums[2]
  {
    var sums := GroupFixtureSummaries();
    assert "bar"[2] != "baz"[2] && "foo"[0] != "baz"[0];
    assert sums[1..][1..] == sums[2..];
    assert SummaryFor("baz", sums[1..]) == sums[2];
  }

  lemma GroupFixtureOwners()
    ensures OwnerSet(GroupFixtureProjects()) == {FixtureTeamFoo, FixtureTeamBar, FixtureTeamBaz}
  {
    var recs := GroupFixtureProjects();
    assert recs[..2][..1] == recs[..1] && recs[..1][..0] == [] && recs[..3][..2] == recs[..2] && recs[..3] == recs;
    assert OwnerSet(recs[..1]) == recs[0].owners;
    assert OwnerSet(recs[..2]) == recs[0].owners + recs[1].owners;
  }

  lemma GroupFixtureTeamsDiffer()
    ensures FixtureTeamFoo != FixtureTeamBar && FixtureTeamFoo != FixtureTeamBaz && FixtureTeamBar != FixtureTeamBaz
  {
    assert FixtureTeamFoo.name[5] != FixtureTeamBar.name[5];
    assert FixtureTeamFoo.name[1] != FixtureTeamBaz.name[1];
    assert FixtureTeamBar.name[1] != FixtureTeamBaz.name[1];
  }

  lemma GroupFixtureLists()
    ensures var recs, sums := GroupFixtureProjects(), GroupFixtureSummaries();
      OwnedSummaries(recs, sums, FixtureTeamFoo) == [sums[0]]
      && OwnedSummaries(recs, sums, FixtureTeamBar) == [sums[0], sums[1]]
      && OwnedSummaries(recs, sums, FixtureTeamBaz) == sums
  {
    GroupFixtureListFoo();
    GroupFixtureListBar();
    GroupFixtureListBaz();
  }

  lemma GroupFixtureListFoo()
    ensures OwnedSummaries(GroupFixtureProjects(), GroupFixtureSummaries(), FixtureTeamFoo) == [GroupFixtureSummaries()[0]]
  {
    var recs, sums := GroupFixtureProjects(), GroupFixtureSummaries();
    GroupFixtureTeamsDiffer();
    GroupFixtureSearch();
    GroupFixtureList(recs, sums, FixtureTeamFoo);
    assert OwnEntry(FixtureTeamFoo, recs[0], sums) == [sums[0]];
    assert OwnEntry(FixtureTeamFoo, recs[1], sums) == [];
    assert OwnEntry(FixtureTeamFoo, recs[2], sums) == [];
    assert [sums[0]] + [] + [] == [sums[0]];
  }

  lemma GroupFixtureListBar()
    ensures var sums := GroupFixtureSummaries();
      OwnedSummaries(GroupFixtureProjects(), sums, FixtureTeamBar) == [sums[0], sums[1]]
  {
    var recs, sums := GroupFixtureProjects(), GroupFixtureSummaries();
    GroupFixtureTeamsDiffer();
    GroupFixtureSearch();
    GroupFixtureList(recs, sums, FixtureTeamBar);
    assert OwnEntry(FixtureTeamBar, recs[0], sums) == [sums[0]];
    assert OwnEntry(FixtureTeamBar, recs[1], sums) == [sums[1]];
    assert OwnEntry(FixtureTeamBar, recs[2], sums) == [];
    assert [sums[0]] + [sums[1]] + [] == [sums[0], sums[1]];
  }

  lemma GroupFixtureListBaz()
    ensures OwnedSummaries(GroupFixtureProjects(), GroupFixtureSummaries(), FixtureTeamBaz) == GroupFixtureSummaries()
  {
    var recs, sums := GroupFixtureProjects(), GroupFixtureSummaries();
    GroupFixtureSearch();
    GroupFixtureList(recs, sums, FixtureTeamBaz);
    assert OwnEntry(FixtureTeamBaz, recs[0], sums) == [sums[0]];
    assert OwnEntry(FixtureTeamBaz, recs[1], sums) == [sums[1]];
    assert OwnEntry(FixtureTeamBaz, recs[2], sums) == [sums[2]];
    assert [sums[0]] + [sums[1]] + [sums[2]] == sums;
  }

  /** The entry project `p` adds to a team's list. */
  function OwnEntry(team: TeamConfig, p: ProjectRecord, sums: seq<ProjectFindingSummary>): seq<ProjectFindingSummary>
  {
    if team in p.owners then [SummaryFor(p.name, sums)] else []
  }

  /** A team's list over three projects, project by project. */
  lemma GroupFixtureList(recs: seq<ProjectRecord>, sums: seq<ProjectFindingSummary>, team: TeamConfig)
    requires |recs| == 3
    ensures OwnedSummaries(recs, sums, team)
        == OwnEntry(team, recs[0], sums) + OwnEntry(team, recs[1], sums) + OwnEntry(team, recs[2], sums)
  {
    assert recs[..3] == recs;
    assert recs[..3][..2] == recs[..2];
    assert recs[..2][..1] == recs[..1];
    assert recs[..1][..0] == [];
    var a, b := OwnEntry(team, recs[0], sums), OwnEntry(team, recs[1], sums);
    assert OwnedSummaries(recs[..1], sums, team) == [] + a;
    assert OwnedSummaries(recs[..2], sums, team) == [] + a + b;
  }

  /** The grouping is any map keyed by the owners whose entries are the owned summaries. */
  lemma GroupedIs(recs: seq<ProjectRecord>, sums: seq<ProjectFindingSummary>, m: map<TeamConfig, seq<ProjectFindingSummary>>)
    requires OwnerSet(recs) == m.Keys
    requires forall t | t in m :: OwnedSummaries(recs, sums, t) == m[t]
    ensures Grouped(recs, sums) == m
  {
  }

  lemma GroupFixtureGrouped()
    ensures var sums := GroupFixtureSummaries();
      Grouped(GroupFixtureProjects(), sums)
        == map[FixtureTeamFoo := [sums[0]], FixtureTeamBar := [sums[0], sums[1]], FixtureTeamBaz := sums]
  {
    var recs, sums := GroupFixtureProjects(), GroupFixtureSummaries();
    var expected := map[FixtureTeamFoo := [sums[0]], FixtureTeamBar := [sums[0], sums[1]], FixtureTeamBaz := sums];
    GroupFixtureOwners();
    GroupFixtureLists();
    GroupFixtureTeamsDiffer();
    GroupedIs(recs, sums, expected);
  }

  /**
   * The grouping test: each team's list holds the summaries of its projects in collection order
   * and ends in a zero entry named SummaryKey.
   */
  lemma GroupTeamFindingsFixture()
    ensures var sums := GroupFixtureSummaries();
      var total := NewProjectFindingSummary(SummaryKey);
      WithTeamSummaries(Grouped(GroupFixtureProjects(), sums))
        == map[FixtureTeamFoo := [sums[0], total], FixtureTeamBar := [sums[0], sums[1], total], FixtureTeamBaz := sums + [total]]
  {
    var sums := GroupFixtureSummaries();
    GroupFixtureGrouped();
    GroupFixtureTeamsDiffer();
    assert TotalOf([sums[0]]) == 0;
    assert TotalOf([sums[0], sums[1]]) == 0;
    assert TotalOf(sums) == 0;
    ZeroTotalsSummaries(FixtureTeamFoo, FixtureTeamBar, FixtureTeamBaz, [sums[0]], [sums[0], sums[1]], sums);
    var total := NewProjectFindingSummary(SummaryKey);
    assert [sums[0]] + [total] == [sums[0], total];
    assert [sums[0], sums[1]] + [total] == [sums[0], sums[1], total];
  }

  lemma ZeroTotalsSummaries(a: TeamConfig, b: TeamConfig, c: TeamConfig,
                            la: seq<ProjectFindingSummary>, lb: seq<ProjectFindingSummary>, lc: seq<ProjectFindingSummary>)
    requires a != b && a != c && b != c
    requires TotalOf(la) == 0 && TotalOf(lb) == 0 && TotalOf(lc) == 0
    ensures var total := NewProjectFindingSummary(SummaryKey);
      WithTeamSummaries(map[a := la, b := lb, c := lc]) == map[a := la + [total], b := lb + [total], c := lc + [total]]
  {
  }
}
