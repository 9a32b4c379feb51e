/**
 * The GitHub collector (querying/github.go): Dependabot alerts are merged into the project
 * collection page by page, then team ownership is read from the team listing.
 *
 * The value layer below states what a run does to the snapshot `seq<ProjectRecord>`; the methods
 * at the end do it to the `ProjectCollection` objects and are proved to match it.
 */
module GitHub {
  import opened Wrappers
  import opened Config
  import opened Paging
  import opened Querying
  import Ascii

  /** A topic containing this, in any case, opts a repository out of ownership tracking. */
  const DisableVulnBotTopicKeyword := "disable-vulnbot"

  /** The key of the Dependabot link in a project's links. */
  const GitHubLinkKey := "GitHub"

  /** One entry of `securityAdvisory.identifiers`. */
  datatype Identifier = Identifier(kind: string, value: string)

  /** A Dependabot alert: its advisory and the vulnerable package, as the query returns them. */
  datatype Alert = Alert(
    description: string,
    identifiers: seq<Identifier>,
    severity: string,
    ecosystem: string,
    packageName: string)

  /** A repository node with one page of its open alerts. */
  datatype OrgRepo = OrgRepo(name: string, url: string, alerts: Connection<Alert>)

  /** A team's access to one repository, with the repository flags the ownership filter reads. */
  datatype RepoEdge = RepoEdge(
    permission: string,
    name: string,
    isFork: bool,
    isArchived: bool,
    topics: seq<string>)

  /** A team node with one page of its repositories. */
  datatype OrgTeam = OrgTeam(name: string, slug: string, repositories: Connection<RepoEdge>)

  /**
   * The answers GitHub gives to one run: the organisation's repository pages, for each repository
   * name the answers to its follow-up alert queries, and the team pages.
   */
  datatype Responses = Responses(
    repoPages: seq<Result<Connection<OrgRepo>>>,
    followUps: map<string, seq<Result<OrgRepo>>>,
    teamPages: seq<Result<Connection<OrgTeam>>>)

  /** `githubEcosystems`: GraphQL `SecurityAdvisoryEcosystem` names to ecosystem labels. */
  const GitHubEcosystems: map<string, Ecosystem> := map[
    "ACTIONS" := "gha",
    "COMPOSER" := "php",
    "ERLANG" := "erlang",
    "GO" := "go",
    "MAVEN" := "java",
    "NPM" := "js",
    "NUGET" := "csharp",
    "PIP" := "python",
    "PUB" := "dart",
    "RUBYGEMS" := "ruby",
    "RUST" := "rust",
    "SWIFT" := "swift"]

  /** `githubSeverities`: GraphQL severity names to severities. */
  const GitHubSeverities: map<string, Severity> := map[
    "CRITICAL" := Critical,
    "HIGH" := High,
    "MODERATE" := Moderate,
    "LOW" := Low]

  /** The four GitHub severities keep their names; anything else reads as the zero severity. */
  lemma SeverityLookups()
    ensures Lookup(GitHubSeverities, "CRITICAL", ZeroSeverity) == Critical
    ensures Lookup(GitHubSeverities, "LOW", ZeroSeverity) == Low
    ensures forall name :: name !in {"CRITICAL", "HIGH", "MODERATE", "LOW"} ==> Lookup(GitHubSeverities, name, ZeroSeverity) == ZeroSeverity
  {
  }

  // ---------------------------------------------------------------------------------------------
  // One alert

  /** The identifier map of an alert: the identifiers in order, each written over the same kind. */
  function IdentifiersOf(ids: seq<Identifier>): IdentifierMap
  {
    if ids == [] then map[]
    else IdentifiersOf(ids[..|ids| - 1])[ids[|ids| - 1].kind := ids[|ids| - 1].value]
  }

  /**
   * One entry per identifier kind, holding the value of the last identifier of that kind: a later
   * identifier of a kind replaces an earlier one.
   */
  lemma IdentifiersOfSpec(ids: seq<Identifier>)
    ensures IdentifiersOf(ids).Keys == set i | 0 <= i < |ids| :: ids[i].kind
    ensures forall i | 0 <= i < |ids| && (forall j | i < j < |ids| :: ids[j].kind != ids[i].kind) ::
      IdentifiersOf(ids)[ids[i].kind] == ids[i].value
  {
    IdentifiersOfKeys(ids);
    IdentifiersOfValues(ids);
  }

  lemma {:induction false} IdentifiersOfKeys(ids: seq<Identifier>)
    ensures IdentifiersOf(ids).Keys == set i | 0 <= i < |ids| :: ids[i].kind
  {
    if ids != [] {
      var init := ids[..|ids| - 1];
      IdentifiersOfKeys(init);
      forall i | 0 <= i < |init| ensures ids[i].kind in (set i | 0 <= i < |init| :: init[i].kind) {
        assert init[i] == ids[i];
      }
      assert (set i | 0 <= i < |ids| :: ids[i].kind) == (set i | 0 <= i < |init| :: init[i].kind) + {ids[|ids| - 1].kind};
    }
  }

  lemma {:induction false} IdentifiersOfValues(ids: seq<Identifier>)
    ensures forall i | 0 <= i < |ids| && (forall j | i < j < |ids| :: ids[j].kind != ids[i].kind) ::
      ids[i].kind in IdentifiersOf(ids) && IdentifiersOf(ids)[ids[i].kind] == ids[i].value
  {
    if ids != [] {
      var init := ids[..|ids| - 1];
      IdentifiersOfValues(init);
      forall i | 0 <= i < |ids| - 1 && (forall j | i < j < |ids| :: ids[j].kind != ids[i].kind)
        ensures ids[i].kind in IdentifiersOf(ids) && IdentifiersOf(ids)[ids[i].kind] == ids[i].value
      {
        assert init[i] == ids[i];
        assert forall j | i < j < |init| :: init[j] == ids[j];
      }
    }
  }

  /** The identifier loop of processRepoFindings. */
  method IdentifierMapOf(ids: seq<Identifier>) returns (m: IdentifierMap)
    ensures m == IdentifiersOf(ids)
  {
    m := map[];
    var i := 0;
    while i < |ids|
      invariant 0 <= i <= |ids|
      invariant m == IdentifiersOf(ids[..i])
    {
      assert ids[..i + 1][..i] == ids[..i];
      m := m[ids[i].kind := ids[i].value];
      i := i + 1;
    }
    assert ids[..i] == ids;
  }

  /**
   * The fields an alert writes into the finding GetFinding returned: description, ecosystem and
   * package only while still empty, the severity every time.
   */
  function FillFromAlert(r: FindingRecord, a: Alert): FindingRecord
  {
    r.(description := if r.description == "" then a.description else r.description,
       ecosystem := if r.ecosystem == "" then Lookup(GitHubEcosystems, a.ecosystem, NoEcosystem) else r.ecosystem,
       packageName := if r.packageName == "" then a.packageName else r.packageName,
       severity := Lookup(GitHubSeverities, a.severity, ZeroSeverity))
  }

  /** Successive alerts written into one finding. */
  function FillAll(r: FindingRecord, alerts: seq<Alert>): FindingRecord
    decreases |alerts|
  {
    if alerts == [] then r else FillAll(FillFromAlert(r, alerts[0]), alerts[1..])
  }

  /** The first non-empty string, or "". */
  function FirstNonEmpty(ss: seq<string>): string
  {
    if ss == [] then "" else if ss[0] != "" then ss[0] else FirstNonEmpty(ss[1..])
  }

  function Descriptions(alerts: seq<Alert>): (r: seq<string>)
    ensures |r| == |alerts| && forall i | 0 <= i < |alerts| :: r[i] == alerts[i].description
  {
    seq(|alerts|, i requires 0 <= i < |alerts| => alerts[i].description)
  }

  function Ecosystems(alerts: seq<Alert>): (r: seq<string>)
    ensures |r| == |alerts| && forall i | 0 <= i < |alerts| :: r[i] == Lookup(GitHubEcosystems, alerts[i].ecosystem, NoEcosystem)
  {
    seq(|alerts|, i requires 0 <= i < |alerts| => Lookup(GitHubEcosystems, alerts[i].ecosystem, NoEcosystem))
  }

  function PackageNames(alerts: seq<Alert>): (r: seq<string>)
    ensures |r| == |alerts| && forall i | 0 <= i < |alerts| :: r[i] == alerts[i].packageName
  {
    seq(|alerts|, i requires 0 <= i < |alerts| => alerts[i].packageName)
  }

  /**
   * The merge policy over any run of alerts landing on one finding: the first non-empty
   * description, ecosystem and package win, the severity is the last alert's, and the identifiers
   * are left alone.
   */
  lemma FillAllPolicy(r: FindingRecord, alerts: seq<Alert>)
    ensures FillAll(r, alerts).description == FirstNonEmpty([r.description] + Descriptions(alerts))
    ensures FillAll(r, alerts).ecosystem == FirstNonEmpty([r.ecosystem] + Ecosystems(alerts))
    ensures FillAll(r, alerts).packageName == FirstNonEmpty([r.packageName] + PackageNames(alerts))
    ensures FillAll(r, alerts).severity
      == if alerts == [] then r.severity else Lookup(GitHubSeverities, alerts[|alerts| - 1].severity, ZeroSeverity)
    ensures FillAll(r, alerts).identifiers == r.identifiers
  {
    FillAllDescription(r, alerts);
    FillAllEcosystem(r, alerts);
    FillAllPackage(r, alerts);
    FillAllSeverity(r, alerts);
  }

  lemma {:induction false} FillAllDescription(r: FindingRecord, alerts: seq<Alert>)
    ensures FillAll(r, alerts).description == FirstNonEmpty([r.description] + Descriptions(alerts))
    decreases |alerts|
  {
    if alerts != [] {
      var a := alerts[0];
      var rest := alerts[1..];
      FillAllDescription(FillFromAlert(r, a), rest);
      FirstNonEmptyStep(r.description, a.description, Descriptions(rest));
      assert Descriptions(alerts) == [a.description] + Descriptions(rest);
    }
  }

  lemma {:induction false} FillAllEcosystem(r: FindingRecord, alerts: seq<Alert>)
    ensures FillAll(r, alerts).ecosystem == FirstNonEmpty([r.ecosystem] + Ecosystems(alerts))
    decreases |alerts|
  {
    if alerts != [] {
      var a := alerts[0];
      var rest := alerts[1..];
      var e := Lookup(GitHubEcosystems, a.ecosystem, NoEcosystem);
      FillAllEcosystem(FillFromAlert(r, a), rest);
      FirstNonEmptyStep(r.ecosystem, e, Ecosystems(rest));
      assert Ecosystems(alerts) == [e] + Ecosystems(rest);
    }
  }

  lemma {:induction false} FillAllPackage(r: FindingRecord, alerts: seq<Alert>)
    ensures FillAll(r, alerts).packageName == FirstNonEmpty([r.packageName] + PackageNames(alerts))
    decreases |alerts|
  {
    if alerts != [] {
      var a := alerts[0];
      var rest := alerts[1..];
      FillAllPackage(FillFromAlert(r, a), rest);
      FirstNonEmptyStep(r.packageName, a.packageName, PackageNames(rest));
      assert PackageNames(alerts) == [a.packageName] + PackageNames(rest);
    }
  }

  lemma {:induction false} FillAllSeverity(r: FindingRecord, alerts: seq<Alert>)
    ensures FillAll(r, alerts).severity
      == if alerts == [] then r.severity else Lookup(GitHubSeverities, alerts[|alerts| - 1].severity, ZeroSeverity)
    ensures FillAll(r, alerts).identifiers == r.identifiers
    decreases |alerts|
  {
    if alerts != [] {
      var rest := alerts[1..];
      FillAllSeverity(FillFromAlert(r, alerts[0]), rest);
      if rest != [] {
        assert alerts[|alerts| - 1] == rest[|rest| - 1];
      }
    }
  }

  /** Filling an empty field with `b` and then scanning is scanning with `b` in the second place. */
  lemma FirstNonEmptyStep(a: string, b: string, rest: seq<string>)
    ensures FirstNonEmpty([if a == "" then b else a] + rest) == FirstNonEmpty([a] + ([b] + rest))
  {
    if a == "" {
      assert ([a] + ([b] + rest))[1..] == [b] + rest;
    }
  }

  /** Merging one alert into a project: GetFinding on its identifiers, then the fill policy. */
  function ApplyAlert(p: ProjectRecord, a: Alert): ProjectRecord
  {
    var ids := IdentifiersOf(a.identifiers);
    var fs := MergeFinding(p.findings, ids);
    var m := FindingIndex(p.findings, ids);
    MergedFindingHasIdentifiers(p.findings, ids);
    p.(findings := fs[m := FillFromAlert(fs[m], a)])
  }

  /**
   * An alert touches one finding, the one GetFinding picks, which ends up carrying every
   * identifier of the alert; the project's name, links and owners stay.
   */
  lemma ApplyAlertSpec(p: ProjectRecord, a: Alert)
    ensures var ids := IdentifiersOf(a.identifiers); var m := FindingIndex(p.findings, ids);
      var r := ApplyAlert(p, a);
      r.name == p.name && r.links == p.links && r.owners == p.owners
      && m < |r.findings| && |r.findings| == (if m < |p.findings| then |p.findings| else |p.findings| + 1)
      && r.findings[m] == FillFromAlert(MergeFinding(p.findings, ids)[m], a)
      && (forall kind | kind in ids :: kind in r.findings[m].identifiers && r.findings[m].identifiers[kind] == ids[kind])
      && (forall j | 0 <= j < |p.findings| && j != m :: r.findings[j] == p.findings[j])
  {
    var ids := IdentifiersOf(a.identifiers);
    MergedFindingHasIdentifiers(p.findings, ids);
    var last := LastMatch(p.findings, ids);
    if last >= 0 {
      MergeFindingUpdates(p.findings, ids, last);
    } else {
      MergeFindingAppends(p.findings, ids);
    }
  }

  /** The alerts of one page merged in order. */
  function ApplyAlerts(p: ProjectRecord, alerts: seq<Alert>): ProjectRecord
    decreases |alerts|
  {
    if alerts == [] then p else ApplyAlerts(ApplyAlert(p, alerts[0]), alerts[1..])
  }

  lemma ApplyAlertsUnfold(p: ProjectRecord, alerts: seq<Alert>, i: nat)
    requires i < |alerts|
    ensures ApplyAlerts(p, alerts[i..]) == ApplyAlerts(ApplyAlert(p, alerts[i]), alerts[i + 1..])
  {
    assert alerts[i..][1..] == alerts[i + 1..];
  }

  lemma {:induction false} ApplyAlertsKeeps(p: ProjectRecord, alerts: seq<Alert>)
    ensures ApplyAlerts(p, alerts).name == p.name
    ensures ApplyAlerts(p, alerts).links == p.links
    ensures ApplyAlerts(p, alerts).owners == p.owners
    ensures |ApplyAlerts(p, alerts).findings| >= |p.findings|
    decreases |alerts|
  {
    if alerts != [] {
      ApplyAlertSpec(p, alerts[0]);
      ApplyAlertsKeeps(ApplyAlert(p, alerts[0]), alerts[1..]);
    }
  }

  // ---------------------------------------------------------------------------------------------
  // One repository

  function DependabotLink(url: string): string
  {
    url + "/security/dependabot"
  }

  /** processRepoFindings up to the follow-up query: register the project, link it, merge the page's alerts. */
  function RepoPage(recs: seq<ProjectRecord>, repo: OrgRepo): seq<ProjectRecord>
  {
    var r := RegisterProject(recs, repo.name);
    var k := ProjectIndex(recs, repo.name);
    r[k := ApplyAlerts(r[k].(links := r[k].links[GitHubLinkKey := DependabotLink(repo.url)]), repo.alerts.nodes)]
  }

  /** What processRepoFindings leaves behind: the snapshot, the error it returns, the alert cursors it sent. */
  datatype RepoPass = RepoPass(recs: seq<ProjectRecord>, err: Option<string>, cursors: seq<string>)

  /**
   * processRepoFindings: one page of alerts, then, while the page says there is more, one follow-up
   * query for the same repository with the page's end cursor, answered from `more`.
   */
  function RepoFindings(recs: seq<ProjectRecord>, repo: OrgRepo, more: seq<Result<OrgRepo>>): RepoPass
    decreases |more|
  {
    var recs' := RepoPage(recs, repo);
    if !repo.alerts.pageInfo.hasNextPage then RepoPass(recs', None, [])
    else
      var cursor := repo.alerts.pageInfo.endCursor;
      if more == [] then RepoPass(recs', Some(NoResponse), [cursor])
      else match more[0]
        case Failure(e) => RepoPass(recs', Some(e), [cursor])
        case Success(next) =>
          var rest := RepoFindings(recs', next, more[1..]);
          RepoPass(rest.recs, rest.err, [cursor] + rest.cursors)
  }

  /** The page of alerts that follow-up query `j` made with `cursors` answers (the first is the repository node itself). */
  function AlertPage(repo: OrgRepo, more: seq<Result<OrgRepo>>, j: nat): Result<OrgRepo>
  {
    if j == 0 then Success(repo) else At(more, j - 1)
  }

  /**
   * The alert walk of one repository: follow-up query `j` carries the end cursor of page `j`, is
   * sent exactly while that page says there is a next one, and the walk ends without error exactly
   * when its last page says there is none.
   */
  lemma {:induction false} RepoFindingsCursors(recs: seq<ProjectRecord>, repo: OrgRepo, more: seq<Result<OrgRepo>>)
    ensures |RepoFindings(recs, repo, more).cursors| <= |more| + 1
    ensures forall j | 0 <= j < |RepoFindings(recs, repo, more).cursors| ::
      AlertPage(repo, more, j).Success?
      && AlertPage(repo, more, j).value.alerts.pageInfo.hasNextPage
      && RepoFindings(recs, repo, more).cursors[j] == AlertPage(repo, more, j).value.alerts.pageInfo.endCursor
    ensures var n := |RepoFindings(recs, repo, more).cursors|;
      RepoFindings(recs, repo, more).err.None?
      <==> AlertPage(repo, more, n).Success? && !AlertPage(repo, more, n).value.alerts.pageInfo.hasNextPage
    decreases |more|
  {
    if repo.alerts.pageInfo.hasNextPage && more != [] && more[0].Success? {
      var next := more[0].value;
      var recs' := RepoPage(recs, repo);
      var rest := RepoFindings(recs', next, more[1..]);
      RepoFindingsCursors(recs', next, more[1..]);
      var cs := RepoFindings(recs, repo, more).cursors;
      assert cs == [repo.alerts.pageInfo.endCursor] + rest.cursors;
      assert RepoFindings(recs, repo, more).err == rest.err;
      forall j | 0 < j <= |cs| ensures AlertPage(repo, more, j) == AlertPage(next, more[1..], j - 1) {
        AlertPageShift(repo, more, j);
      }
      forall j | 0 < j < |cs| ensures cs[j] == rest.cursors[j - 1] {
      }
    }
  }

  lemma AlertPageShift(repo: OrgRepo, more: seq<Result<OrgRepo>>, j: nat)
    requires more != [] && more[0].Success? && j > 0
    ensures AlertPage(repo, more, j) == AlertPage(more[0].value, more[1..], j - 1)
  {
  }

  lemma RepoPageRegisters(recs: seq<ProjectRecord>, repo: OrgRepo)
    requires NamesNormalAndDistinct(recs)
    ensures NamesExtend(recs, RepoPage(recs, repo)) && Registered(RepoPage(recs, repo), repo.name)
    ensures NamesNormalAndDistinct(RepoPage(recs, repo))
  {
    var r := RegisterProject(recs, repo.name);
    var k := ProjectIndex(recs, repo.name);
    RegisterProjectSpec(recs, repo.name);
    ApplyAlertsKeeps(r[k].(links := r[k].links[GitHubLinkKey := DependabotLink(repo.url)]), repo.alerts.nodes);
    var out := RepoPage(recs, repo);
    assert RecordNames(out) == RecordNames(r);
    forall j | 0 <= j < |recs| ensures out[j].name == recs[j].name {
      assert r[j] == recs[j];
    }
  }

  lemma {:induction false} RepoFindingsRegisters(recs: seq<ProjectRecord>, repo: OrgRepo, more: seq<Result<OrgRepo>>)
    requires NamesNormalAndDistinct(recs)
    ensures var out := RepoFindings(recs, repo, more).recs;
      NamesExtend(recs, out) && Registered(out, repo.name) && NamesNormalAndDistinct(out)
    decreases |more|
  {
    var recs' := RepoPage(recs, repo);
    RepoPageRegisters(recs, repo);
    if repo.alerts.pageInfo.hasNextPage && more != [] && more[0].Success? {
      var out := RepoFindings(recs', more[0].value, more[1..]).recs;
      RepoFindingsRegisters(recs', more[0].value, more[1..]);
      RegisteredKept(recs', out, repo.name);
    }
  }

  /** The follow-up answers for one repository. */
  function FollowUpsOf(followUps: map<string, seq<Result<OrgRepo>>>, name: string): seq<Result<OrgRepo>>
  {
    Lookup(followUps, name, [])
  }

  /** One page of repositories, each processed in turn; a repository's error is only logged. */
  function PageFindings(recs: seq<ProjectRecord>, repos: seq<OrgRepo>, followUps: map<string, seq<Result<OrgRepo>>>): seq<ProjectRecord>
    decreases |repos|
  {
    if repos == [] then recs
    else PageFindings(RepoFindings(recs, repos[0], FollowUpsOf(followUps, repos[0].name)).recs, repos[1..], followUps)
  }

  /**
   * Every repository of a page gets its project, whatever errors the others' follow-up queries
   * met, and the projects already there keep their places.
   */
  lemma {:induction false} PageFindingsRegistersAll(recs: seq<ProjectRecord>, repos: seq<OrgRepo>, followUps: map<string, seq<Result<OrgRepo>>>)
    requires NamesNormalAndDistinct(recs)
    ensures var out := PageFindings(recs, repos, followUps);
      NamesExtend(recs, out) && NamesNormalAndDistinct(out)
      && forall i | 0 <= i < |repos| :: Registered(out, repos[i].name)
    decreases |repos|
  {
    if repos != [] {
      var recs' := RepoFindings(recs, repos[0], FollowUpsOf(followUps, repos[0].name)).recs;
      RepoFindingsRegisters(recs, repos[0], FollowUpsOf(followUps, repos[0].name));
      PageFindingsRegistersAll(recs', repos[1..], followUps);
      var out := PageFindings(recs, repos, followUps);
      assert out == PageFindings(recs', repos[1..], followUps);
      forall i | 0 <= i < |repos| ensures Registered(out, repos[i].name) {
        if i == 0 {
          RegisteredKept(recs', out, repos[0].name);
        } else {
          assert repos[1..][i - 1] == repos[i];
        }
      }
    }
  }

  /** What the repository walk leaves behind: the snapshot and the error CollectFindings returns. */
  datatype WalkPass = WalkPass(recs: seq<ProjectRecord>, err: Option<string>)

  /** The repository walk from query `i` on: a failed query ends it with its error. */
  function RepoWalk(recs: seq<ProjectRecord>, pages: seq<Result<Connection<OrgRepo>>>, i: nat,
                    followUps: map<string, seq<Result<OrgRepo>>>): WalkPass
    decreases |pages| - i
  {
    match At(pages, i)
    case Failure(e) => WalkPass(recs, Some(e))
    case Success(page) =>
      var recs' := PageFindings(recs, page.nodes, followUps);
      if !page.pageInfo.hasNextPage then WalkPass(recs', None)
      else RepoWalk(recs', pages, i + 1, followUps)
  }

  // ---------------------------------------------------------------------------------------------
  // Ownership

  /** hasDisableVulnbotTopic */
  function HasDisableVulnbotTopic(topics: seq<string>): (b: bool)
    ensures b <==> exists i | 0 <= i < |topics| :: Ascii.Contains(Ascii.ToLower(topics[i]), DisableVulnBotTopicKeyword)
  {
    if topics == [] then false
    else if Ascii.Contains(Ascii.ToLower(topics[0]), DisableVulnBotTopicKeyword) then true
    else
      var b := HasDisableVulnbotTopic(topics[1..]);
      assert forall i | 1 <= i < |topics| :: topics[i] == topics[1..][i - 1];
      b
  }

  /** Archived repositories, forks and opted-out repositories are not tracked. */
  predicate Ignored(e: RepoEdge)
  {
    e.isArchived || e.isFork || HasDisableVulnbotTopic(e.topics)
  }

  /** Only these permissions make a team an owner. */
  predicate Grants(e: RepoEdge)
  {
    e.permission == "ADMIN" || e.permission == "MAINTAIN"
  }

  /** One repository edge of a configured team. */
  function EdgeOwners(recs: seq<ProjectRecord>, team: TeamConfig, e: RepoEdge): seq<ProjectRecord>
  {
    if Ignored(e) || !Grants(e) then recs
    else
      var r := RegisterProject(recs, e.name);
      var k := ProjectIndex(recs, e.name);
      r[k := r[k].(owners := r[k].owners + {team})]
  }

  function EdgesOwners(recs: seq<ProjectRecord>, team: TeamConfig, edges: seq<RepoEdge>): seq<ProjectRecord>
    decreases |edges|
  {
    if edges == [] then recs else EdgesOwners(EdgeOwners(recs, team, edges[0]), team, edges[1..])
  }

  /** One team of a page: a team the configuration does not know is skipped. */
  function TeamOwners(recs: seq<ProjectRecord>, team: OrgTeam, config: seq<TeamConfig>): seq<ProjectRecord>
  {
    var lookup := GetTeamConfigBySlug(team.slug, config);
    if lookup.err.Some? then recs else EdgesOwners(recs, lookup.team, team.repositories.nodes)
  }

  /** processRepoOwners on one page of teams. */
  function TeamsOwners(recs: seq<ProjectRecord>, teams: seq<OrgTeam>, config: seq<TeamConfig>): seq<ProjectRecord>
    decreases |teams|
  {
    if teams == [] then recs else TeamsOwners(TeamOwners(recs, teams[0], config), teams[1..], config)
  }

  /** What gatherRepoOwners leaves behind: the snapshot and the error `log.Fatal` stops the process with. */
  datatype OwnerPass = OwnerPass(recs: seq<ProjectRecord>, fatal: Option<string>)

  function OwnerWalk(recs: seq<ProjectRecord>, pages: seq<Result<Connection<OrgTeam>>>, i: nat, config: seq<TeamConfig>): OwnerPass
    decreases |pages| - i
  {
    match At(pages, i)
    case Failure(e) => OwnerPass(recs, Some(e))
    case Success(page) =>
      var recs' := TeamsOwners(recs, page.nodes, config);
      if !page.pageInfo.hasNextPage then OwnerPass(recs', None)
      else OwnerWalk(recs', pages, i + 1, config)
  }

  /** A repository edge through which a team becomes an owner. */
  predicate Eligible(e: RepoEdge)
  {
    !Ignored(e) && Grants(e)
  }

  /** Does `team` own the project carrying the normal name `n`? */
  predicate OwnsNamed(recs: seq<ProjectRecord>, team: TeamConfig, n: string)
  {
    exists j | 0 <= j < |recs| :: recs[j].name == n && team in recs[j].owners
  }

  /** An owner after an eligible edge owned the project before, or is the edge's team on the edge's project. */
  lemma EligibleEdgeOwnersOnly(recs: seq<ProjectRecord>, team: TeamConfig, e: RepoEdge, t: TeamConfig, n: string)
    requires NamesNormalAndDistinct(recs) && Eligible(e)
    requires OwnsNamed(EdgeOwners(recs, team, e), t, n)
    ensures OwnsNamed(recs, t, n) || (t == team && Normalize(e.name) == n)
  {
    var r := RegisterProject(recs, e.name);
    var k := ProjectIndex(recs, e.name);
    RegisterProjectSpec(recs, e.name);
    var out := EdgeOwners(recs, team, e);
    var j :| 0 <= j < |out| && out[j].name == n && t in out[j].owners;
    if j != k || t != team {
      if j < |recs| {
        assert r[j] == recs[j];
      }
    }
  }

  /** An eligible edge keeps every owner and adds its team to its project. */
  lemma EligibleEdgeOwnersKept(recs: seq<ProjectRecord>, team: TeamConfig, e: RepoEdge, t: TeamConfig, n: string)
    requires NamesNormalAndDistinct(recs) && Eligible(e)
    requires OwnsNamed(recs, t, n) || (t == team && Normalize(e.name) == n)
    ensures OwnsNamed(EdgeOwners(recs, team, e), t, n)
  {
    var r := RegisterProject(recs, e.name);
    var k := ProjectIndex(recs, e.name);
    RegisterProjectSpec(recs, e.name);
    var out := EdgeOwners(recs, team, e);
    if OwnsNamed(recs, t, n) {
      var j :| 0 <= j < |recs| && recs[j].name == n && t in recs[j].owners;
      assert r[j] == recs[j];
      assert out[j].name == n && t in out[j].owners;
    } else {
      assert out[k].name == n && t in out[k].owners;
    }
  }

  /**
   * The ownership rule for one edge: afterwards `t` owns the project named `n` exactly when it did
   * before, or `t` is the edge's team, the edge is eligible and names that project.
   */
  lemma EdgeOwnersRule(recs: seq<ProjectRecord>, team: TeamConfig, e: RepoEdge, t: TeamConfig, n: string)
    requires NamesNormalAndDistinct(recs)
    ensures NamesNormalAndDistinct(EdgeOwners(recs, team, e))
    ensures OwnsNamed(EdgeOwners(recs, team, e), t, n)
      <==> OwnsNamed(recs, t, n) || (t == team && Eligible(e) && Normalize(e.name) == n)
  {
    if Eligible(e) {
      var r := RegisterProject(recs, e.name);
      RegisterProjectSpec(recs, e.name);
      assert RecordNames(EdgeOwners(recs, team, e)) == RecordNames(r);
      if OwnsNamed(EdgeOwners(recs, team, e), t, n) {
        EligibleEdgeOwnersOnly(recs, team, e, t, n);
      }
      if OwnsNamed(recs, t, n) || (t == team && Normalize(e.name) == n) {
        EligibleEdgeOwnersKept(recs, team, e, t, n);
      }
    }
  }

  /** Some eligible edge of `edges` names the project `n`. */
  predicate SomeEligible(edges: seq<RepoEdge>, n: string)
  {
    exists i | 0 <= i < |edges| :: Eligible(edges[i]) && Normalize(edges[i].name) == n
  }

  /** An eligible edge names `n` when the first does or one of the rest does. */
  lemma SomeEligibleCons(edges: seq<RepoEdge>, n: string)
    requires edges != []
    ensures SomeEligible(edges, n) <==> (Eligible(edges[0]) && Normalize(edges[0].name) == n) || SomeEligible(edges[1..], n)
  {
    if SomeEligible(edges, n) {
      var i :| 0 <= i < |edges| && Eligible(edges[i]) && Normalize(edges[i].name) == n;
      if i > 0 { assert edges[1..][i - 1] == edges[i]; }
    }
    if SomeEligible(edges[1..], n) {
      var i :| 0 <= i < |edges[1..]| && Eligible(edges[1..][i]) && Normalize(edges[1..][i].name) == n;
      assert edges[i + 1] == edges[1..][i];
    }
  }

  /** The ownership rule over a team's edges. */
  lemma {:induction false} EdgesOwnersRule(recs: seq<ProjectRecord>, team: TeamConfig, edges: seq<RepoEdge>, t: TeamConfig, n: string)
    requires NamesNormalAndDistinct(recs)
    ensures NamesNormalAndDistinct(EdgesOwners(recs, team, edges))
    ensures OwnsNamed(EdgesOwners(recs, team, edges), t, n)
      <==> OwnsNamed(recs, t, n) || (t == team && SomeEligible(edges, n))
    decreases |edges|
  {
    if edges != [] {
      var recs' := EdgeOwners(recs, team, edges[0]);
      EdgeOwnersRule(recs, team, edges[0], t, n);
      EdgesOwnersRule(recs', team, edges[1..], t, n);
      SomeEligibleCons(edges, n);
      assert EdgesOwners(recs, team, edges) == EdgesOwners(recs', team, edges[1..]);
    }
  }

  /** The owner pass changes owners only, and only by adding: names, findings and links stay, new projects are empty. */
  predicate OnlyOwnersGrow(before: seq<ProjectRecord>, after: seq<ProjectRecord>)
  {
    |before| <= |after|
    && (forall j | 0 <= j < |before| ::
          after[j].name == before[j].name && after[j].findings == before[j].findings
          && after[j].links == before[j].links && before[j].owners <= after[j].owners)
    && forall j | |before| <= j < |after| :: after[j].findings == [] && after[j].links == map[]
  }

  lemma OnlyOwnersGrowTransitive(a: seq<ProjectRecord>, b: seq<ProjectRecord>, c: seq<ProjectRecord>)
    requires OnlyOwnersGrow(a, b) && OnlyOwnersGrow(b, c)
    ensures OnlyOwnersGrow(a, c)
  {
  }

  lemma EdgeOwnersGrow(recs: seq<ProjectRecord>, team: TeamConfig, e: RepoEdge)
    ensures OnlyOwnersGrow(recs, EdgeOwners(recs, team, e))
  {
    RegisterProjectSpec(recs, e.name);
    var r := RegisterProject(recs, e.name);
    forall j | 0 <= j < |recs| ensures r[j] == recs[j] {
      assert r[..|recs|][j] == r[j];
    }
  }

  lemma {:induction false} EdgesOwnersGrow(recs: seq<ProjectRecord>, team: TeamConfig, edges: seq<RepoEdge>)
    ensures OnlyOwnersGrow(recs, EdgesOwners(recs, team, edges))
    decreases |edges|
  {
    if edges != [] {
      var recs' := EdgeOwners(recs, team, edges[0]);
      EdgeOwnersGrow(recs, team, edges[0]);
      EdgesOwnersGrow(recs', team, edges[1..]);
      OnlyOwnersGrowTransitive(recs, recs', EdgesOwners(recs', team, edges[1..]));
    }
  }

  lemma {:induction false} TeamsOwnersGrow(recs: seq<ProjectRecord>, teams: seq<OrgTeam>, config: seq<TeamConfig>)
    ensures OnlyOwnersGrow(recs, TeamsOwners(recs, teams, config))
    decreases |teams|
  {
    if teams != [] {
      var lookup := GetTeamConfigBySlug(teams[0].slug, config);
      var recs' := TeamOwners(recs, teams[0], config);
      if lookup.err.None? {
        EdgesOwnersGrow(recs, lookup.team, teams[0].repositories.nodes);
      }
      TeamsOwnersGrow(recs', teams[1..], config);
      OnlyOwnersGrowTransitive(recs, recs', TeamsOwners(recs', teams[1..], config));
    }
  }

  /** Ownership gathering touches nothing but owner sets, and only adds to them. */
  lemma {:induction false} OwnerWalkGrows(recs: seq<ProjectRecord>, pages: seq<Result<Connection<OrgTeam>>>, i: nat, config: seq<TeamConfig>)
    ensures OnlyOwnersGrow(recs, OwnerWalk(recs, pages, i, config).recs)
    decreases |pages| - i
  {
    match At(pages, i)
    case Failure(_) =>
    case Success(page) =>
      var recs' := TeamsOwners(recs, page.nodes, config);
      TeamsOwnersGrow(recs, page.nodes, config);
      if page.pageInfo.hasNextPage {
        OwnerWalkGrows(recs', pages, i + 1, config);
        OnlyOwnersGrowTransitive(recs, recs', OwnerWalk(recs', pages, i + 1, config).recs);
      }
  }

  // ---------------------------------------------------------------------------------------------
  // A whole run

  /**
   * CollectFindings: the repository walk; if it fails, its error is returned and ownership is not
   * gathered; otherwise the team walk, whose failure stops the process.
   */
  function Collect(recs: seq<ProjectRecord>, src: Responses, config: seq<TeamConfig>): Run
  {
    var w := RepoWalk(recs, src.repoPages, 0, src.followUps);
    if w.err.Some? then Run(w.recs, Failed(w.err.value))
    else
      var o := OwnerWalk(w.recs, src.teamPages, 0, config);
      Run(o.recs, if o.fatal.Some? then Aborted(o.fatal.value) else Completed)
  }

  /** The findings pass never touches owner sets: the projects it creates have none. */
  predicate OwnersKept(before: seq<ProjectRecord>, after: seq<ProjectRecord>)
  {
    |before| <= |after|
    && (forall j | 0 <= j < |before| :: after[j].owners == before[j].owners)
    && forall j | |before| <= j < |after| :: after[j].owners == {}
  }

  lemma OwnersKeptTransitive(a: seq<ProjectRecord>, b: seq<ProjectRecord>, c: seq<ProjectRecord>)
    requires OwnersKept(a, b) && OwnersKept(b, c)
    ensures OwnersKept(a, c)
  {
  }

  lemma RepoPageKeepsOwners(recs: seq<ProjectRecord>, repo: OrgRepo)
    ensures OwnersKept(recs, RepoPage(recs, repo))
  {
    var r := RegisterProject(recs, repo.name);
    var k := ProjectIndex(recs, repo.name);
    RegisterProjectSpec(recs, repo.name);
    ApplyAlertsKeeps(r[k].(links := r[k].links[GitHubLinkKey := DependabotLink(repo.url)]), repo.alerts.nodes);
    forall j | 0 <= j < |recs| ensures r[j] == recs[j] {
      assert r[..|recs|][j] == r[j];
    }
  }

  lemma {:induction false} RepoFindingsKeepsOwners(recs: seq<ProjectRecord>, repo: OrgRepo, more: seq<Result<OrgRepo>>)
    ensures OwnersKept(recs, RepoFindings(recs, repo, more).recs)
    decreases |more|
  {
    var recs' := RepoPage(recs, repo);
    RepoPageKeepsOwners(recs, repo);
    if repo.alerts.pageInfo.hasNextPage && more != [] && more[0].Success? {
      RepoFindingsKeepsOwners(recs', more[0].value, more[1..]);
      OwnersKeptTransitive(recs, recs', RepoFindings(recs', more[0].value, more[1..]).recs);
    }
  }

  lemma {:induction false} PageFindingsKeepsOwners(recs: seq<ProjectRecord>, repos: seq<OrgRepo>, followUps: map<string, seq<Result<OrgRepo>>>)
    ensures OwnersKept(recs, PageFindings(recs, repos, followUps))
    decreases |repos|
  {
    if repos != [] {
      var recs' := RepoFindings(recs, repos[0], FollowUpsOf(followUps, repos[0].name)).recs;
      RepoFindingsKeepsOwners(recs, repos[0], FollowUpsOf(followUps, repos[0].name));
      PageFindingsKeepsOwners(recs', repos[1..], followUps);
      OwnersKeptTransitive(recs, recs', PageFindings(recs', repos[1..], followUps));
    }
  }

  lemma {:induction false} RepoWalkKeepsOwners(recs: seq<ProjectRecord>, pages: seq<Result<Connection<OrgRepo>>>, i: nat,
                                               followUps: map<string, seq<Result<OrgRepo>>>)
    ensures OwnersKept(recs, RepoWalk(recs, pages, i, followUps).recs)
    decreases |pages| - i
  {
    match At(pages, i)
    case Failure(_) =>
    case Success(page) =>
      var recs' := PageFindings(recs, page.nodes, followUps);
      PageFindingsKeepsOwners(recs, page.nodes, followUps);
      if page.pageInfo.hasNextPage {
        RepoWalkKeepsOwners(recs', pages, i + 1, followUps);
        OwnersKeptTransitive(recs, recs', RepoWalk(recs', pages, i + 1, followUps).recs);
      }
  }

  /**
   * A failed repository query ends the run with its error before ownership is gathered: the
   * projects merged so far stay, and no owner is added anywhere.
   */
  lemma FailedRunAddsNoOwner(recs: seq<ProjectRecord>, src: Responses, config: seq<TeamConfig>)
    requires Collect(recs, src, config).outcome.Failed?
    ensures OwnersKept(recs, Collect(recs, src, config).recs)
    ensures Collect(recs, src, config).recs == RepoWalk(recs, src.repoPages, 0, src.followUps).recs
  {
    RepoWalkKeepsOwners(recs, src.repoPages, 0, src.followUps);
  }

  /** A run that completes leaves exactly the owner pass applied to what the findings pass left. */
  lemma CompletedRunGathersOwners(recs: seq<ProjectRecord>, src: Responses, config: seq<TeamConfig>)
    requires Collect(recs, src, config).outcome.Completed?
    ensures var w := RepoWalk(recs, src.repoPages, 0, src.followUps).recs;
      OnlyOwnersGrow(w, Collect(recs, src, config).recs) && OwnersKept(recs, w)
  {
    var w := RepoWalk(recs, src.repoPages, 0, src.followUps).recs;
    RepoWalkKeepsOwners(recs, src.repoPages, 0, src.followUps);
    OwnerWalkGrows(w, src.teamPages, 0, config);
  }

  // ---------------------------------------------------------------------------------------------
  // The collector on the collection objects

  /** The fill of processRepoFindings, on the finding at position `m` of project `p`. */
  method FillFinding(p: Project, f: Finding, ghost m: nat, a: Alert)
    requires p.Valid() && m < |p.findings| && f == p.findings[m]
    modifies f
    ensures RecordsOf(p.findings) == old(RecordsOf(p.findings))[m := FillFromAlert(old(f.Record()), a)]
  {
    ghost var recs := RecordsOf(p.findings);
    if f.description == "" {
      f.description := a.description;
    }
    if f.ecosystem == "" {
      f.ecosystem := Lookup(GitHubEcosystems, a.ecosystem, NoEcosystem);
    }
    if f.packageName == "" {
      f.packageName := a.packageName;
    }
    f.severity := Lookup(GitHubSeverities, a.severity, ZeroSeverity);
    forall j | 0 <= j < |p.findings| && j != m ensures RecordsOf(p.findings)[j] == recs[j] {
      assert p.findings[j] != f;
    }
  }

  /** One alert of processRepoFindings: the finding its identifiers select, filled from it. */
  method ProcessAlert(p: Project, a: Alert)
    requires p.Valid()
    modifies p.Footprint()
    ensures p.Valid()
    ensures p.Record() == ApplyAlert(old(p.Record()), a)
    ensures fresh(p.Footprint() - old(p.Footprint()))
  {
    ghost var recs := RecordsOf(p.findings);
    var ids := IdentifierMapOf(a.identifiers);
    var f := p.GetFinding(ids);
    assert f == p.findings[FindingIndex(recs, ids)] && f in p.findings;
    assert f as object in p.Footprint();
    FillFinding(p, f, FindingIndex(recs, ids), a);
  }

  /** The alert loop of processRepoFindings, on one project. */
  method ProcessAlerts(p: Project, alerts: seq<Alert>)
    requires p.Valid()
    modifies p.Footprint()
    ensures p.Valid()
    ensures p.Record() == ApplyAlerts(old(p.Record()), alerts)
    ensures fresh(p.Footprint() - old(p.Footprint()))
  {
    var i := 0;
    while i < |alerts|
      invariant 0 <= i <= |alerts|
      invariant p.Valid()
      invariant ApplyAlerts(p.Record(), alerts[i..]) == ApplyAlerts(old(p.Record()), alerts)
      invariant fresh(p.Footprint() - old(p.Footprint()))
    {
      ghost var before := p.Record();
      ProcessAlert(p, alerts[i]);
      ApplyAlertsUnfold(before, alerts, i);
      i := i + 1;
    }
  }

  /** `project.Links["GitHub"] = …` on project `k` of the collection. */
  method LinkProject(c: ProjectCollection, p: Project, ghost k: nat, url: string)
    requires c.Valid() && k < |c.projects| && c.projects[k] == p
    modifies p
    ensures c.Valid()
    ensures c.projects == old(c.projects)
    ensures c.Records() == old(c.Records())[k := old(c.Records()[k]).(links := old(c.Records()[k]).links[GitHubLinkKey := DependabotLink(url)])]
    ensures c.Footprint() == old(c.Footprint())
  {
    ghost var before := p.Record();
    assert old(c.Records())[k] == before;
    p.links := p.links[GitHubLinkKey := DependabotLink(url)];
    assert p.Record() == before.(links := before.links[GitHubLinkKey := DependabotLink(url)]);
    ProjectChanged(c, p);
    SameFootprint(c);
  }

  /** `project.Owners.Add(teamConfig)` on project `k` of the collection. */
  method AddOwner(c: ProjectCollection, p: Project, ghost k: nat, team: TeamConfig)
    requires c.Valid() && k < |c.projects| && c.projects[k] == p
    modifies p
    ensures c.Valid()
    ensures c.Records() == old(c.Records())[k := old(c.Records()[k]).(owners := old(c.Records()[k]).owners + {team})]
    ensures c.Footprint() == old(c.Footprint())
  {
    ghost var before := p.Record();
    assert old(c.Records())[k] == before;
    p.owners := p.owners + {team};
    assert p.Record() == before.(owners := before.owners + {team});
    ProjectChanged(c, p);
    SameFootprint(c);
  }

  /** The alerts of one page merged into project `k` of the collection. */
  method MergeAlerts(c: ProjectCollection, p: Project, ghost k: nat, alerts: seq<Alert>)
    requires c.Valid() && k < |c.projects| && c.projects[k] == p
    modifies p.Footprint()
    ensures c.Valid()
    ensures c.Records() == old(c.Records())[k := ApplyAlerts(old(c.Records()[k]), alerts)]
    ensures fresh(c.Footprint() - old(c.Footprint()))
  {
    ProcessAlerts(p, alerts);
    ProjectChanged(c, p);
  }

  /**
   * processRepoFindings: register and link the project, merge the page of alerts, and while the
   * repository has more alerts query it again with the page's end cursor.
   */
  method ProcessRepoFindings(c: ProjectCollection, repo: OrgRepo, more: seq<Result<OrgRepo>>)
    returns (err: Option<string>, cursors: seq<string>)
    requires c.Valid()
    modifies c.Footprint()
    ensures c.Valid()
    ensures RepoPass(c.Records(), err, cursors) == RepoFindings(old(c.Records()), repo, more)
    ensures fresh(c.Footprint() - old(c.Footprint()))
    decreases |more|
  {
    ProcessAlertPage(c, repo);
    if !repo.alerts.pageInfo.hasNextPage {
      return None, [];
    }
    var cursor := repo.alerts.pageInfo.endCursor;
    if |more| == 0 {
      return Some(NoResponse), [cursor];
    }
    if more[0].Failure? {
      return Some(more[0].error), [cursor];
    }
    var rest;
    label M:
    err, rest := ProcessRepoFindings(c, more[0].value, more[1..]);
    cursors := [cursor] + rest;
    forall o | o in c.Footprint() && o !in old(c.Footprint()) ensures fresh(o) {
      if o !in old@M(c.Footprint()) {
        assert !old@M(allocated(o));
      }
    }
  }

  lemma UpdateTwice<T>(s: seq<T>, k: nat, a: T, b: T)
    requires k < |s|
    ensures s[k := a][k := b] == s[k := b]
  {
  }

  /** One page of a repository's alerts: the project is registered and linked, and the alerts merged. */
  method ProcessAlertPage(c: ProjectCollection, repo: OrgRepo)
    requires c.Valid()
    modifies c.Footprint()
    ensures c.Valid()
    ensures c.Records() == RepoPage(old(c.Records()), repo)
    ensures fresh(c.Footprint() - old(c.Footprint()))
  {
    ghost var registered := RegisterProject(c.Records(), repo.name);
    var p, k := RegisterRepo(c, repo);
    ghost var linked := registered[k].(links := registered[k].links[GitHubLinkKey := DependabotLink(repo.url)]);
    ProjectFootprintIn(c, p);
    label L:
    MergeAlerts(c, p, k, repo.alerts.nodes);
    assert c.Records() == registered[k := linked][k := ApplyAlerts(linked, repo.alerts.nodes)];
    UpdateTwice(registered, k, linked, ApplyAlerts(linked, repo.alerts.nodes));
    forall o | o in c.Footprint() && o !in old(c.Footprint()) ensures fresh(o) {
      if o !in old@L(c.Footprint()) {
        assert !old@L(allocated(o));
      }
    }
  }

  /** The start of processRepoFindings: GetProject on the repository's name, then its GitHub link. */
  method RegisterRepo(c: ProjectCollection, repo: OrgRepo) returns (p: Project, ghost k: nat)
    requires c.Valid()
    modifies c.Footprint()
    ensures c.Valid()
    ensures k == ProjectIndex(old(c.Records()), repo.name) && k < |c.projects| && c.projects[k] == p
    ensures var r := RegisterProject(old(c.Records()), repo.name);
      c.Records() == r[k := r[k].(links := r[k].links[GitHubLinkKey := DependabotLink(repo.url)])]
    ensures fresh(c.Footprint() - old(c.Footprint()))
  {
    ghost var recs := c.Records();
    p := c.GetProject(repo.name);
    k := ProjectIndex(recs, repo.name);
    ProjectFootprintIn(c, p);
    LinkProject(c, p, k, repo.url);
  }

  /** The repository loop of one page of CollectFindings: each repository's error is only logged. */
  method ProcessRepoPage(c: ProjectCollection, repos: seq<OrgRepo>, followUps: map<string, seq<Result<OrgRepo>>>)
    requires c.Valid()
    modifies c.Footprint()
    ensures c.Valid()
    ensures c.Records() == PageFindings(old(c.Records()), repos, followUps)
    ensures fresh(c.Footprint() - old(c.Footprint()))
  {
    var i := 0;
    while i < |repos|
      invariant 0 <= i <= |repos|
      invariant c.Valid()
      invariant PageFindings(c.Records(), repos[i..], followUps) == PageFindings(old(c.Records()), repos, followUps)
      invariant forall o | o in c.Footprint() && o !in old(c.Footprint()) :: fresh(o)
    {
      label L:
      var err, alertCursors := ProcessRepoFindings(c, repos[i], FollowUpsOf(followUps, repos[i].name));
      forall o | o in c.Footprint() && o !in old(c.Footprint()) ensures fresh(o) {
        if o !in old@L(c.Footprint()) {
          assert !old@L(allocated(o));
        }
      }
      assert repos[i..][1..] == repos[i + 1..];
      i := i + 1;
    }
  }

  /** The variables of one ownership query: the repository cursor and the team cursor. */
  datatype OwnerQuery = OwnerQuery(repoCursor: Option<string>, teamCursor: Option<string>)

  /** The ownership queries of a team walk: the repository cursor stays nil. */
  function OwnerQueries(teamCursors: seq<Option<string>>): (qs: seq<OwnerQuery>)
    ensures |qs| == |teamCursors|
    ensures forall j | 0 <= j < |qs| :: qs[j].repoCursor.None? && qs[j].teamCursor == teamCursors[j]
  {
    seq(|teamCursors|, j requires 0 <= j < |teamCursors| => OwnerQuery(None, teamCursors[j]))
  }

  lemma OwnerQueriesAppend(teamCursors: seq<Option<string>>, cursor: Option<string>)
    ensures OwnerQueries(teamCursors + [cursor]) == OwnerQueries(teamCursors) + [OwnerQuery(None, cursor)]
  {
  }

  /**
   * CollectFindings: the repository walk, then ownership. The repository cursors sent are those of
   * the cursor walk over the repository pages; a failed walk returns its error and sends no
   * ownership query.
   */
  method CollectFindings(c: ProjectCollection, src: Responses, config: seq<TeamConfig>)
    returns (outcome: Outcome, repoCursors: seq<Option<string>>, ownerQueries: seq<OwnerQuery>)
    requires c.Valid()
    modifies c.Footprint()
    ensures c.Valid()
    ensures Run(c.Records(), outcome) == Collect(old(c.Records()), src, config)
    ensures repoCursors == CursorWalk(src.repoPages, 0, None)
    ensures outcome.Failed? ==> ownerQueries == []
    ensures !outcome.Failed? ==> ownerQueries == OwnerQueries(CursorWalk(src.teamPages, 0, None))
    ensures fresh(c.Footprint() - old(c.Footprint()))
  {
    var err;
    err, repoCursors := WalkRepos(c, src.repoPages, src.followUps);
    if err.Some? {
      outcome := Failed(err.value);
      ownerQueries := [];
      return;
    }
    var fatal;
    label G:
    fatal, ownerQueries := GatherRepoOwners(c, src.teamPages, config);
    forall o | o in c.Footprint() && o !in old(c.Footprint()) ensures fresh(o) {
      if o !in old@G(c.Footprint()) {
        assert !old@G(allocated(o));
      }
    }
    outcome := if fatal.Some? then Aborted(fatal.value) else Completed;
  }

  /**
   * The repository loop of CollectFindings: one page of repositories per query, each later query
   * carrying the previous page's end cursor; a failed query ends the walk with its error.
   */
  method WalkRepos(c: ProjectCollection, pages: seq<Result<Connection<OrgRepo>>>, followUps: map<string, seq<Result<OrgRepo>>>)
    returns (err: Option<string>, repoCursors: seq<Option<string>>)
    requires c.Valid()
    modifies c.Footprint()
    ensures c.Valid()
    ensures WalkPass(c.Records(), err) == RepoWalk(old(c.Records()), pages, 0, followUps)
    ensures repoCursors == CursorWalk(pages, 0, None)
    ensures fresh(c.Footprint() - old(c.Footprint()))
  {
    ghost var goal := RepoWalk(c.Records(), pages, 0, followUps);
    ghost var f0 := c.Footprint();
    var cursor: Option<string> := None;
    var i := 0;
    repoCursors := [];
    CursorWalkStart(pages);
    while true
      invariant i <= |pages|
      invariant c.Valid()
      invariant RepoWalk(c.Records(), pages, i, followUps) == goal
      invariant repoCursors + CursorWalk(pages, i, cursor) == CursorWalk(pages, 0, None)
      invariant forall o | o in c.Footprint() && o !in f0 :: fresh(o)
      decreases |pages| - i
    {
      var response := At(pages, i);
      if response.Failure? {
        CursorWalkLast(pages, i, cursor, repoCursors);
        repoCursors := repoCursors + [cursor];
        return Some(response.error), repoCursors;
      }
      var page := response.value;
      ghost var f1 := c.Footprint();
      assert RepoWalk(c.Records(), pages, i, followUps) ==
        var recs' := PageFindings(c.Records(), page.nodes, followUps);
        if !page.pageInfo.hasNextPage then WalkPass(recs', None) else RepoWalk(recs', pages, i + 1, followUps);
      label L:
      ProcessRepoPage(c, page.nodes, followUps);
      forall o | o in c.Footprint() && o !in f0 ensures fresh(o) {
        if o !in f1 {
          assert !old@L(allocated(o));
        }
      }
      if !page.pageInfo.hasNextPage {
        CursorWalkLast(pages, i, cursor, repoCursors);
        repoCursors := repoCursors + [cursor];
        return None, repoCursors;
      }
      CursorWalkStep(pages, i, cursor, repoCursors);
      repoCursors := repoCursors + [cursor];
      cursor := Some(page.pageInfo.endCursor);
      i := i + 1;
    }
  }

  /**
   * gatherRepoOwners: the team walk. The team cursor follows the cursor walk over the team pages;
   * the repository cursor stays nil, so only each team's first page of repositories is read. A
   * failed query ends the walk with the error `log.Fatal` stops the process with.
   */
  method GatherRepoOwners(c: ProjectCollection, pages: seq<Result<Connection<OrgTeam>>>, config: seq<TeamConfig>)
    returns (fatal: Option<string>, queries: seq<OwnerQuery>)
    requires c.Valid()
    modifies c.Footprint()
    ensures c.Valid()
    ensures OwnerPass(c.Records(), fatal) == OwnerWalk(old(c.Records()), pages, 0, config)
    ensures queries == OwnerQueries(CursorWalk(pages, 0, None))
    ensures fresh(c.Footprint() - old(c.Footprint()))
  {
    var teamCursor: Option<string> := None;
    var i := 0;
    ghost var sent: seq<Option<string>> := [];
    queries := [];
    CursorWalkStart(pages);
    while true
      invariant i <= |pages|
      invariant c.Valid()
      invariant OwnerWalk(c.Records(), pages, i, config) == OwnerWalk(old(c.Records()), pages, 0, config)
      invariant sent + CursorWalk(pages, i, teamCursor) == CursorWalk(pages, 0, None)
      invariant queries == OwnerQueries(sent)
      invariant forall o | o in c.Footprint() && o !in old(c.Footprint()) :: fresh(o)
      decreases |pages| - i
    {
      OwnerQueriesAppend(sent, teamCursor);
      queries := queries + [OwnerQuery(None, teamCursor)];
      var response := At(pages, i);
      if response.Failure? {
        CursorWalkLast(pages, i, teamCursor, sent);
        sent := sent + [teamCursor];
        fatal := Some(response.error);
        return;
      }
      var page := response.value;
      label BeforePage:
      ProcessRepoOwners(c, page.nodes, config);
      forall o | o in c.Footprint() && o !in old(c.Footprint()) ensures fresh(o) {
        if o !in old@BeforePage(c.Footprint()) {
          assert !old@BeforePage(allocated(o));
        }
      }
      if !page.pageInfo.hasNextPage {
        CursorWalkLast(pages, i, teamCursor, sent);
        sent := sent + [teamCursor];
        return None, queries;
      }
      CursorWalkStep(pages, i, teamCursor, sent);
      sent := sent + [teamCursor];
      teamCursor := Some(page.pageInfo.endCursor);
      i := i + 1;
    }
  }

  /** processRepoOwners: every team of one page that the configuration knows. */
  method ProcessRepoOwners(c: ProjectCollection, teams: seq<OrgTeam>, config: seq<TeamConfig>)
    requires c.Valid()
    modifies c.Footprint()
    ensures c.Valid()
    ensures c.Records() == TeamsOwners(old(c.Records()), teams, config)
    ensures fresh(c.Footprint() - old(c.Footprint()))
  {
    var i := 0;
    while i < |teams|
      invariant 0 <= i <= |teams|
      invariant c.Valid()
      invariant TeamsOwners(c.Records(), teams[i..], config) == TeamsOwners(old(c.Records()), teams, config)
      invariant forall o | o in c.Footprint() && o !in old(c.Footprint()) :: fresh(o)
    {
      label L:
      ProcessTeam(c, teams[i], config);
      forall o | o in c.Footprint() && o !in old(c.Footprint()) ensures fresh(o) {
        if o !in old@L(c.Footprint()) {
          assert !old@L(allocated(o));
        }
      }
      assert teams[i..][1..] == teams[i + 1..];
      i := i + 1;
    }
  }

  /** One team of processRepoOwners: its repositories, when the configuration knows its slug. */
  method ProcessTeam(c: ProjectCollection, team: OrgTeam, config: seq<TeamConfig>)
    requires c.Valid()
    modifies c.Footprint()
    ensures c.Valid()
    ensures c.Records() == TeamOwners(old(c.Records()), team, config)
    ensures fresh(c.Footprint() - old(c.Footprint()))
  {
    var lookup := GetTeamConfigBySlug(team.slug, config);
    if lookup.err.None? {
      ProcessTeamRepos(c, lookup.team, team.repositories.nodes);
    }
  }

  /** The repository loop of processRepoOwners for one configured team. */
  method ProcessTeamRepos(c: ProjectCollection, team: TeamConfig, edges: seq<RepoEdge>)
    requires c.Valid()
    modifies c.Footprint()
    ensures c.Valid()
    ensures c.Records() == EdgesOwners(old(c.Records()), team, edges)
    ensures fresh(c.Footprint() - old(c.Footprint()))
  {
    var i := 0;
    while i < |edges|
      invariant 0 <= i <= |edges|
      invariant c.Valid()
      invariant EdgesOwners(c.Records(), team, edges[i..]) == EdgesOwners(old(c.Records()), team, edges)
      invariant forall o | o in c.Footprint() && o !in old(c.Footprint()) :: fresh(o)
    {
      label L:
      ProcessEdge(c, team, edges[i]);
      forall o | o in c.Footprint() && o !in old(c.Footprint()) ensures fresh(o) {
        if o !in old@L(c.Footprint()) {
          assert !old@L(allocated(o));
        }
      }
      assert edges[i..][1..] == edges[i + 1..];
      i := i + 1;
    }
  }

  /** One repository of a team: skipped when ignored, and only ADMIN or MAINTAIN adds the team as owner. */
  method ProcessEdge(c: ProjectCollection, team: TeamConfig, e: RepoEdge)
    requires c.Valid()
    modifies c.Footprint()
    ensures c.Valid()
    ensures c.Records() == EdgeOwners(old(c.Records()), team, e)
    ensures fresh(c.Footprint() - old(c.Footprint()))
  {
    var shouldIgnoreRepo := Ignored(e);
    if shouldIgnoreRepo {
      return;
    }
    if Grants(e) {
      GrantOwner(c, team, e);
    }
  }

  /** The ADMIN and MAINTAIN case of processRepoOwners: the team becomes an owner of the project. */
  method GrantOwner(c: ProjectCollection, team: TeamConfig, e: RepoEdge)
    requires c.Valid() && !Ignored(e) && Grants(e)
    modifies c.Footprint()
    ensures c.Valid()
    ensures c.Records() == EdgeOwners(old(c.Records()), team, e)
    ensures fresh(c.Footprint() - old(c.Footprint()))
  {
    ghost var recs := c.Records();
    var p := c.GetProject(e.name);
    ghost var k := ProjectIndex(recs, e.name);
    ProjectFootprintIn(c, p);
    AddOwner(c, p, k, team);
  }


}
