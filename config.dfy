/**
 * The configuration vocabulary shared by the collectors and the reports: the severity scale, the
 * ecosystem labels, the team table and the three read-only lookups over the configured tables.
 */
module Config {
  import opened Wrappers
  import Ascii

  /** The severity scale, most severe first; the declaration order is Go's `iota` order. */
  datatype Severity = Critical | High | Moderate | Low | Info | Undefined

  /** The numeric value Go's `iota` gives each severity. */
  function Rank(s: Severity): (r: nat)
    ensures r < 6
    ensures s == Critical <==> r == 0
    ensures s == Undefined <==> r == 5
  {
    match s
    case Critical => 0
    case High => 1
    case Moderate => 2
    case Low => 3
    case Info => 4
    case Undefined => 5
  }

  /** Distinct severities have distinct ranks, so `<` on ranks is a strict total order on severities. */
  lemma RankInjective(a: Severity, b: Severity)
    requires Rank(a) == Rank(b)
    ensures a == b
  {
  }

  /** The value a severity field holds before anything is stored in it: Go's zero value, rank 0. */
  const ZeroSeverity: Severity := Critical

  /** The display name of each severity. */
  function SeverityName(s: Severity): (name: string)
    ensures |name| > 0
  {
    match s
    case Critical => "Critical"
    case High => "High"
    case Moderate => "Moderate"
    case Low => "Low"
    case Info => "Info"
    case Undefined => "Undefined"
  }

  lemma SeverityNameInjective(a: Severity, b: Severity)
    requires SeverityName(a) == SeverityName(b)
    ensures a == b
  {
  }

  /** An ecosystem is a lower-case label such as "go" or "python"; a map miss yields "". */
  type Ecosystem = string

  const NoEcosystem: Ecosystem := ""

  datatype TeamConfig = TeamConfig(name: string, githubSlug: string, slackChannel: string)

  /** `TeamConfig{}` */
  const ZeroTeamConfig := TeamConfig("", "", "")

  datatype SeverityConfig = SeverityConfig(caption: string, slackEmoji: string)

  datatype EcosystemConfig = EcosystemConfig(caption: string, slackEmoji: string)

  /** The icon used when nothing is configured: a single space. */
  const DefaultSlackIcon := " "

  /** What `GetTeamConfigBySlug` returns: the team and the error beside it. */
  datatype TeamLookup = TeamLookup(team: TeamConfig, err: Option<string>)

  /** The first configured team carrying the slug, or the zero team and an error naming the slug. */
  function GetTeamConfigBySlug(slug: string, teams: seq<TeamConfig>): (r: TeamLookup)
    ensures r.err.None? <==> exists i | 0 <= i < |teams| :: teams[i].githubSlug == slug
    ensures r.err.None? ==>
      exists i | 0 <= i < |teams| :: teams[i] == r.team && teams[i].githubSlug == slug
        && forall j | 0 <= j < i :: teams[j].githubSlug != slug
    ensures r.err.Some? ==> r.team == ZeroTeamConfig && r.err.value == "No config found for team " + slug
  {
    if teams == [] then TeamLookup(ZeroTeamConfig, Some("No config found for team " + slug))
    else if teams[0].githubSlug == slug then TeamLookup(teams[0], None)
    else
      var r := GetTeamConfigBySlug(slug, teams[1..]);
      assert forall i | 1 <= i < |teams| :: teams[i] == teams[1..][i - 1];
      r
  }

  /** The emoji of the first severity entry labelled with the severity's display name, else the default icon. */
  function GetIconForSeverity(severity: Severity, severities: seq<SeverityConfig>): (icon: string)
    ensures (forall i | 0 <= i < |severities| :: severities[i].caption != SeverityName(severity))
      ==> icon == DefaultSlackIcon
    ensures (exists i | 0 <= i < |severities| :: severities[i].caption == SeverityName(severity))
      ==>
      exists i | 0 <= i < |severities| :: severities[i].caption == SeverityName(severity)
        && icon == severities[i].slackEmoji
        && forall j | 0 <= j < i :: severities[j].caption != SeverityName(severity)
  {
    if severities == [] then DefaultSlackIcon
    else if severities[0].caption == SeverityName(severity) then severities[0].slackEmoji
    else
      var icon := GetIconForSeverity(severity, severities[1..]);
      assert forall i | 1 <= i < |severities| :: severities[i] == severities[1..][i - 1];
      icon
  }

  /** The emoji of the first ecosystem entry whose lower-cased label is the ecosystem, else the default icon. */
  function GetIconForEcosystem(ecosystem: Ecosystem, ecosystems: seq<EcosystemConfig>): (icon: string)
    ensures (forall i | 0 <= i < |ecosystems| :: Ascii.ToLower(ecosystems[i].caption) != ecosystem)
      ==> icon == DefaultSlackIcon
    ensures (exists i | 0 <= i < |ecosystems| :: Ascii.ToLower(ecosystems[i].caption) == ecosystem)
      ==>
      exists i | 0 <= i < |ecosystems| :: Ascii.ToLower(ecosystems[i].caption) == ecosystem
        && icon == ecosystems[i].slackEmoji
        && forall j | 0 <= j < i :: Ascii.ToLower(ecosystems[j].caption) != ecosystem
  {
    if ecosystems == [] then DefaultSlackIcon
    else if Ascii.ToLower(ecosystems[0].caption) == ecosystem then ecosystems[0].slackEmoji
    else
      var icon := GetIconForEcosystem(ecosystem, ecosystems[1..]);
      assert forall i | 1 <= i < |ecosystems| :: ecosystems[i] == ecosystems[1..][i - 1];
      icon
  }

  /** The configured-team case of the lookup's tests: the first of two teams is found by its slug. */
  lemma TeamFoundBySlug()
    ensures var testers := TeamConfig("Testers", "testers-team", "");
      GetTeamConfigBySlug("testers-team", [testers, TeamConfig("Failers", "failers-team", "")])
        == TeamLookup(testers, None)
  {
  }

  /** A label configured in another case still matches: "Python" is the icon of "python". */
  lemma EcosystemLabelCaseIgnored()
    ensures GetIconForEcosystem("python", [EcosystemConfig("Python", ":python:"), EcosystemConfig("Go", ":golang:")])
      == ":python:"
  {
    assert Ascii.ToLower("Python") == "python";
  }
}
