/**
 * The finding-aggregation data model (querying/project.go, querying/finding.go): a collection of
 * projects keyed by normalised name, each holding findings keyed by partial identifier matches.
 *
 * Projects and findings are objects that the collectors update in place. Each object also has a
 * value snapshot (`Record`, `Records`); the operations are specified by what they do to the
 * snapshots, through the value-level functions `RegisterProject` and `MergeFinding`.
 */
module Querying {
  import opened Config
  import opened Paging
  import Ascii

  /** Identifier kind ("CVE", "GHSA", ...) to the identifier of that kind. */
  type IdentifierMap = map<string, string>

  /** The value of a finding's fields at one moment. */
  datatype FindingRecord = FindingRecord(
    identifiers: IdentifierMap,
    ecosystem: Ecosystem,
    severity: Severity,
    description: string,
    packageName: string)

  /** `&Finding{Identifiers: ids}`: every other field at Go's zero value. */
  function NewFindingRecord(ids: IdentifierMap): (r: FindingRecord)
    ensures r.identifiers == ids && r.ecosystem == NoEcosystem && r.severity == ZeroSeverity
    ensures r.description == "" && r.packageName == ""
  {
    FindingRecord(ids, NoEcosystem, ZeroSeverity, "", "")
  }

  /** Do the two maps agree on at least one (kind, identifier) pair? */
  predicate SharesIdentifier(known: IdentifierMap, ids: IdentifierMap)
  {
    exists kind | kind in known :: kind in ids && ids[kind] == known[kind]
  }

  /** The inner loop of GetFinding: does a finding with identifiers `known` match `ids`? */
  method MatchesIdentifiers(known: IdentifierMap, ids: IdentifierMap) returns (found: bool)
    ensures found <==> SharesIdentifier(known, ids)
  {
    var rest := known.Keys;
    found := false;
    while rest != {}
      invariant rest <= known.Keys
      invariant forall kind | kind in known.Keys - rest :: !(kind in ids && ids[kind] == known[kind])
      decreases |rest|
    {
      var kind :| kind in rest;
      if kind in ids && ids[kind] == known[kind] {
        found := true;
        break;
      }
      rest := rest - {kind};
    }
  }

  /**
   * The index of the finding GetFinding picks: the LAST one sharing a pair with `ids` (the `break`
   * leaves only the inner loop, so later matches overwrite earlier ones), or -1.
   */
  function LastMatch(recs: seq<FindingRecord>, ids: IdentifierMap): (r: int)
    ensures -1 <= r < |recs|
    ensures r >= 0 ==> SharesIdentifier(recs[r].identifiers, ids)
    ensures forall j | r < j < |recs| :: !SharesIdentifier(recs[j].identifiers, ids)
  {
    if recs == [] then -1
    else if SharesIdentifier(recs[|recs| - 1].identifiers, ids) then |recs| - 1
    else LastMatch(recs[..|recs| - 1], ids)
  }

  /** The position of the finding GetFinding returns: the last match, or the end of the list. */
  function FindingIndex(recs: seq<FindingRecord>, ids: IdentifierMap): nat
  {
    var m := LastMatch(recs, ids);
    if m < 0 then |recs| else m
  }

  /**
   * The findings after GetFinding(ids): the last match has `ids` copied over its identifiers
   * (`maps.Copy`, so `ids` wins on a shared kind); without a match a new finding is appended.
   */
  function MergeFinding(recs: seq<FindingRecord>, ids: IdentifierMap): (r: seq<FindingRecord>)
  {
    var m := LastMatch(recs, ids);
    if m < 0 then recs + [NewFindingRecord(ids)]
    else recs[m := recs[m].(identifiers := recs[m].identifiers + ids)]
  }

  /** Without a match, exactly one finding holding exactly `ids` is appended and the rest is kept. */
  lemma MergeFindingAppends(recs: seq<FindingRecord>, ids: IdentifierMap)
    requires forall j | 0 <= j < |recs| :: !SharesIdentifier(recs[j].identifiers, ids)
    ensures MergeFinding(recs, ids) == recs + [NewFindingRecord(ids)]
    ensures FindingIndex(recs, ids) == |recs|
  {
  }

  /**
   * With a match, the list keeps its length, only the last matching finding changes, and only in its
   * identifiers, which become the union of both maps with the new values winning.
   */
  lemma MergeFindingUpdates(recs: seq<FindingRecord>, ids: IdentifierMap, m: nat)
    requires m < |recs| && SharesIdentifier(recs[m].identifiers, ids)
    requires forall j | m < j < |recs| :: !SharesIdentifier(recs[j].identifiers, ids)
    ensures var r := MergeFinding(recs, ids);
      |r| == |recs| && FindingIndex(recs, ids) == m
      && r[m] == recs[m].(identifiers := recs[m].identifiers + ids)
      && (forall j | 0 <= j < |recs| && j != m :: r[j] == recs[j])
  {
    assert LastMatch(recs, ids) == m;
  }

  /** After GetFinding, the returned finding carries every identifier it was asked for. */
  lemma MergedFindingHasIdentifiers(recs: seq<FindingRecord>, ids: IdentifierMap)
    ensures var r := MergeFinding(recs, ids); var k := FindingIndex(recs, ids);
      k < |r| && |r| >= |recs|
      && (forall kind | kind in ids :: kind in r[k].identifiers && r[k].identifiers[kind] == ids[kind])
      && (k < |recs| ==> r[k].identifiers.Keys == recs[k].identifiers.Keys + ids.Keys)
  {
  }

  /**
   * GetFinding does not keep findings pairwise disjoint: two identifier sets that arrive apart and
   * then together leave two findings sharing the pair ("CVE", "1").
   */
  lemma MergeCanLeaveSharedPair()
    ensures var s1 := MergeFinding([], map["CVE" := "1"]);
      var s2 := MergeFinding(s1, map["GHSA" := "2"]);
      var s3 := MergeFinding(s2, map["CVE" := "1", "GHSA" := "2"]);
      |s3| == 2 && s3[0].identifiers == map["CVE" := "1"]
      && s3[1].identifiers == map["GHSA" := "2", "CVE" := "1"]
  {
    var s1 := MergeFinding([], map["CVE" := "1"]);
    assert !SharesIdentifier(s1[0].identifiers, map["GHSA" := "2"]);
    var s2 := MergeFinding(s1, map["GHSA" := "2"]);
    assert |s2| == 2;
    assert SharesIdentifier(s2[1].identifiers, map["CVE" := "1", "GHSA" := "2"]) by {
      assert "GHSA" in s2[1].identifiers;
    }
  }

  /** A finding: mutable, because the collectors fill in its fields after looking it up. */
  class Finding {
    var identifiers: IdentifierMap
    var ecosystem: Ecosystem
    var severity: Severity
    var description: string
    var packageName: string

    constructor (ids: IdentifierMap)
      ensures Record() == NewFindingRecord(ids)
    {
      identifiers := ids;
      ecosystem := NoEcosystem;
      severity := ZeroSeverity;
      description := "";
      packageName := "";
    }

    function Record(): FindingRecord
      reads this
    {
      FindingRecord(identifiers, ecosystem, severity, description, packageName)
    }
  }

  /** The snapshots of a list of findings, in order. */
  function RecordsOf(fs: seq<Finding>): (r: seq<FindingRecord>)
    reads fs
    ensures |r| == |fs|
    ensures forall i | 0 <= i < |fs| :: r[i] == fs[i].Record()
  {
    seq(|fs|, i reads fs requires 0 <= i < |fs| => fs[i].Record())
  }

  /** The value of a project's fields at one moment. */
  datatype ProjectRecord = ProjectRecord(
    name: string,
    findings: seq<FindingRecord>,
    links: map<string, string>,
    owners: set<TeamConfig>)

  /** `NewProject(name)`: no findings, no links, no owners. */
  function NewProjectRecord(name: string): (r: ProjectRecord)
    ensures r.name == name && r.findings == [] && r.links == map[] && r.owners == {}
  {
    ProjectRecord(name, [], map[], {})
  }

  class Project {
    const name: string
    var findings: seq<Finding>
    var links: map<string, string>
    var owners: set<TeamConfig>

    /** NewProject */
    constructor (name: string)
      ensures Record() == NewProjectRecord(name)
    {
      this.name := name;
      findings := [];
      links := map[];
      owners := {};
    }

    /** No finding object is listed twice. */
    ghost predicate Valid()
      reads this
    {
      forall i, j | 0 <= i < j < |findings| :: findings[i] != findings[j]
    }

    /** The project and its finding objects: what merging alerts into it may change. */
    ghost function Footprint(): set<object>
      reads this
    {
      {this} + set g | g in findings :: g as object
    }

    function Record(): ProjectRecord
      reads this, findings
    {
      ProjectRecord(name, RecordsOf(findings), links, owners)
    }

    /** The outer loop of GetFinding: the last finding sharing a pair with `ids`, or null. */
    method LastMatching(ids: IdentifierMap) returns (result: Finding?)
      ensures LastMatch(RecordsOf(findings), ids) < 0 ==> result == null
      ensures LastMatch(RecordsOf(findings), ids) >= 0 ==> result == findings[LastMatch(RecordsOf(findings), ids)]
    {
      ghost var recs := RecordsOf(findings);
      ghost var m := -1;
      result := null;
      var i := 0;
      while i < |findings|
        invariant 0 <= i <= |findings| == |recs|
        invariant m == LastMatch(recs[..i], ids)
        invariant result == (if m < 0 then null else findings[m])
      {
        var known := findings[i].identifiers;
        assert known == recs[i].identifiers;
        var found := MatchesIdentifiers(known, ids);
        assert recs[..i + 1][..i] == recs[..i];
        if found {
          result := findings[i];
          m := i;
        }
        i := i + 1;
      }
      assert recs[..i] == recs;
    }

    /** Project.GetFinding: get-or-merge by partial identifier match. */
    method GetFinding(ids: IdentifierMap) returns (f: Finding)
      requires Valid()
      modifies Footprint()
      ensures Valid()
      ensures RecordsOf(findings) == MergeFinding(old(RecordsOf(findings)), ids)
      ensures FindingIndex(old(RecordsOf(findings)), ids) < |findings|
      ensures f == findings[FindingIndex(old(RecordsOf(findings)), ids)]
      ensures LastMatch(old(RecordsOf(findings)), ids) >= 0 ==> findings == old(findings)
      ensures LastMatch(old(RecordsOf(findings)), ids) < 0 ==> fresh(f) && findings == old(findings) + [f]
      ensures links == old(links) && owners == old(owners)
      ensures fresh(Footprint() - old(Footprint()))
    {
      ghost var recs := RecordsOf(findings);
      var result := LastMatching(ids);
      if result == null {
        MergeFindingAppends(recs, ids);
        f := AddFinding(ids);
      } else {
        assert result in findings && result as object in Footprint();
        MergeMatched(result, ids, LastMatch(recs, ids));
        f := result;
      }
    }

    /** The match branch of GetFinding, on the last match `g` at position `m`. */
    method MergeMatched(g: Finding, ids: IdentifierMap, ghost m: nat)
      requires Valid()
      requires m < |findings| && g == findings[m] && m == LastMatch(RecordsOf(findings), ids)
      modifies g
      ensures Valid()
      ensures RecordsOf(findings) == MergeFinding(old(RecordsOf(findings)), ids)
      ensures FindingIndex(old(RecordsOf(findings)), ids) == m
      ensures findings == old(findings) && links == old(links) && owners == old(owners)
    {
      ghost var recs := RecordsOf(findings);
      assert g in findings;
      CopyIdentifiers(g, ids, m);
      UpdatedAt(recs, RecordsOf(findings), m, recs[m].(identifiers := recs[m].identifiers + ids));
    }

    /** The no-match branch of GetFinding: a new finding holding `ids` goes at the end. */
    method AddFinding(ids: IdentifierMap) returns (f: Finding)
      requires Valid()
      modifies this
      ensures Valid()
      ensures fresh(f) && findings == old(findings) + [f]
      ensures RecordsOf(findings) == old(RecordsOf(findings)) + [NewFindingRecord(ids)]
      ensures links == old(links) && owners == old(owners)
    {
      f := new Finding(ids);
      findings := findings + [f];
      AppendedRecords(old(findings), f);
    }

    /** The match branch of GetFinding: `maps.Copy(finding.Identifiers, ids)` on the finding at `m`. */
    method CopyIdentifiers(g: Finding, ids: IdentifierMap, ghost m: nat)
      requires Valid()
      requires m < |findings| && g == findings[m]
      modifies g
      ensures Valid()
      ensures |RecordsOf(findings)| == |old(RecordsOf(findings))|
      ensures RecordsOf(findings)[m] == old(RecordsOf(findings)[m]).(identifiers := old(RecordsOf(findings)[m]).identifiers + ids)
      ensures forall j | 0 <= j < |findings| && j != m :: RecordsOf(findings)[j] == old(RecordsOf(findings)[j])
    {
      ghost var recs := RecordsOf(findings);
      g.identifiers := g.identifiers + ids;
      forall j | 0 <= j < |findings| && j != m ensures RecordsOf(findings)[j] == recs[j] {
        assert findings[j] != g;
      }
    }
  }

  /** Two sequences that agree everywhere but at `m`, where the second holds `v`. */
  lemma UpdatedAt<T>(a: seq<T>, b: seq<T>, m: nat, v: T)
    requires m < |a| == |b| && b[m] == v
    requires forall j | 0 <= j < |a| && j != m :: b[j] == a[j]
    ensures b == a[m := v]
  {
  }

  lemma AppendedRecords(fs: seq<Finding>, f: Finding)
    ensures RecordsOf(fs + [f]) == RecordsOf(fs) + [f.Record()]
  {
    assert (fs + [f])[..|fs|] == fs;
  }

  /** The characters a normalised name may hold after lower-casing: letters, digits, ' ', '-', '_'. */
  predicate Acceptable(c: char)
  {
    Ascii.IsLetter(c) || Ascii.IsDigit(c) || c == ' ' || c == '-' || c == '_'
  }

  /** Delete every character that is not acceptable (the regular expression `[^\p{L}\p{N} \-\_]+`). */
  function StripUnacceptable(s: string): string
  {
    if s == [] then []
    else (if Acceptable(s[0]) then [s[0]] else []) + StripUnacceptable(s[1..])
  }

  /** Turn spaces and hyphens into underscores. */
  function Underscore(s: string): string
  {
    if s == [] then []
    else [if s[0] == ' ' || s[0] == '-' then '_' else s[0]] + Underscore(s[1..])
  }

  /** normalizeProjectName */
  function Normalize(name: string): string
  {
    Underscore(StripUnacceptable(Ascii.ToLower(name)))
  }

  /** The alphabet of normalised names: lower-case letters, digits and '_'. */
  predicate NormalChar(c: char)
  {
    Ascii.IsLower(c) || Ascii.IsDigit(c) || c == '_'
  }

  predicate IsNormal(s: string)
  {
    forall i | 0 <= i < |s| :: NormalChar(s[i])
  }

  /** Stripping a string without upper-case letters leaves only characters a normal name may hold. */
  lemma {:induction false} StripLeavesNormal(s: string)
    requires forall i | 0 <= i < |s| :: !Ascii.IsUpper(s[i])
    ensures forall i | 0 <= i < |StripUnacceptable(s)| :: NormalChar(StripUnacceptable(s)[i]) || StripUnacceptable(s)[i] in " -"
  {
    if s != [] {
      StripLeavesNormal(s[1..]);
    }
  }

  lemma {:induction false} UnderscoreShape(s: string)
    ensures |Underscore(s)| == |s|
    ensures forall i | 0 <= i < |s| :: Underscore(s)[i] == if s[i] == ' ' || s[i] == '-' then '_' else s[i]
  {
    if s != [] {
      UnderscoreShape(s[1..]);
    }
  }

  /** A normalised name holds only lower-case letters, digits and underscores: no space or hyphen survives. */
  lemma NormalizeIsNormal(name: string)
    ensures IsNormal(Normalize(name))
  {
    var lower := Ascii.ToLower(name);
    StripLeavesNormal(lower);
    UnderscoreShape(StripUnacceptable(lower));
  }

  lemma {:induction false} StripAcceptable(s: string)
    requires forall i | 0 <= i < |s| :: Acceptable(s[i])
    ensures StripUnacceptable(s) == s
  {
    if s != [] {
      assert Acceptable(s[0]);
      StripAcceptable(s[1..]);
    }
  }

  lemma {:induction false} UnderscoreNormal(s: string)
    requires IsNormal(s)
    ensures Underscore(s) == s
  {
    if s != [] {
      assert NormalChar(s[0]);
      UnderscoreNormal(s[1..]);
    }
  }

  /** A name already in normal form is left as it is. */
  lemma NormalizeFixesNormal(s: string)
    requires IsNormal(s)
    ensures Normalize(s) == s
  {
    Ascii.ToLowerOfLower(s);
    StripAcceptable(s);
    UnderscoreNormal(s);
  }

  /** normalizeProjectName is idempotent. */
  lemma NormalizeIdempotent(name: string)
    ensures Normalize(Normalize(name)) == Normalize(name)
  {
    NormalizeIsNormal(name);
    NormalizeFixesNormal(Normalize(name));
  }

  /**
   * The name of the project tests: upper case lowered, ':' and '!' dropped, hyphens and spaces
   * turned into '_'.
   */
  lemma NormalizeExample()
    ensures Normalize("Heart-of-Gold: Improbability Drive!") == "heart_of_gold_improbability_drive"
  {
    assert "Heart-of-Gold: Improbability Drive!" == "Heart-of-Gold:" + " Improbability Drive!";
    assert "heart_of_gold" + "_improbability_drive" == "heart_of_gold_improbability_drive";
    NormalizeExampleHead();
    NormalizeExampleTail();
    NormalizeJoin("Heart-of-Gold: Improbability Drive!", "Heart-of-Gold:", " Improbability Drive!",
                  "heart_of_gold", "_improbability_drive");
  }

  lemma NormalizeExampleHead()
    ensures Normalize("Heart-of-Gold:") == "heart_of_gold"
  {
    NormalizeKept("Heart-of-Gold", "heart_of_gold");
    NormalizeDropsLast("Heart-of-Gold:", "Heart-of-Gold", ':', "heart_of_gold");
  }

  lemma NormalizeExampleTail()
    ensures Normalize(" Improbability Drive!") == "_improbability_drive"
  {
    NormalizeKept(" Improbability Drive", "_improbability_drive");
    NormalizeDropsLast(" Improbability Drive!", " Improbability Drive", '!', "_improbability_drive");
  }

  /** A name of acceptable characters only is lowered character by character, ' ' and '-' becoming '_'. */
  lemma NormalizeKept(s: string, out: string)
    requires forall i | 0 <= i < |s| :: Acceptable(s[i])
    requires |out| == |s|
    requires forall i | 0 <= i < |s| :: out[i] == if s[i] == ' ' || s[i] == '-' then '_' else Ascii.LowerChar(s[i])
    ensures Normalize(s) == out
  {
    var lower := Ascii.ToLower(s);
    assert forall i | 0 <= i < |lower| :: lower[i] == Ascii.LowerChar(s[i]);
    StripAcceptable(lower);
    UnderscoreShape(lower);
  }

  /** A trailing character that is neither upper case nor acceptable leaves no trace. */
  lemma NormalizeDropsLast(whole: string, s: string, c: char, out: string)
    requires whole == s + [c] && !Ascii.IsUpper(c) && !Acceptable(c)
    requires Normalize(s) == out
    ensures Normalize(whole) == out
  {
    NormalizeAppend(s, [c]);
    assert Ascii.ToLower([c]) == [c];
    assert StripUnacceptable([c]) == [];
  }

  lemma NormalizeJoin(whole: string, a: string, b: string, na: string, nb: string)
    requires whole == a + b && Normalize(a) == na && Normalize(b) == nb
    ensures Normalize(whole) == na + nb
  {
    NormalizeAppend(a, b);
  }

  lemma {:induction false} NormalizeAppend(a: string, b: string)
    ensures Normalize(a + b) == Normalize(a) + Normalize(b)
  {
    Ascii.ToLowerAppend(a, b);
    StripAppend(Ascii.ToLower(a), Ascii.ToLower(b));
    UnderscoreAppend(StripUnacceptable(Ascii.ToLower(a)), StripUnacceptable(Ascii.ToLower(b)));
  }

  lemma {:induction false} StripAppend(a: string, b: string)
    ensures StripUnacceptable(a + b) == StripUnacceptable(a) + StripUnacceptable(b)
  {
    if a != [] {
      assert (a + b)[1..] == a[1..] + b;
      StripAppend(a[1..], b);
    } else {
      assert a + b == b;
    }
  }

  lemma {:induction false} UnderscoreAppend(a: string, b: string)
    ensures Underscore(a + b) == Underscore(a) + Underscore(b)
  {
    if a != [] {
      assert (a + b)[1..] == a[1..] + b;
      UnderscoreAppend(a[1..], b);
    } else {
      assert a + b == b;
    }
  }

  /** The first index whose project name normalises to `name`, or -1. */
  function IndexOfName(recs: seq<ProjectRecord>, name: string): (r: int)
    ensures -1 <= r < |recs|
    ensures r >= 0 ==> Normalize(recs[r].name) == name
    ensures forall j | 0 <= j < |recs| && (r < 0 || j < r) :: Normalize(recs[j].name) != name
  {
    if recs == [] then -1
    else if Normalize(recs[0].name) == name then 0
    else
      var r := IndexOfName(recs[1..], name);
      assert forall j | 1 <= j < |recs| :: recs[j] == recs[1..][j - 1];
      if r < 0 then -1 else r + 1
  }

  /** The position of the project GetProject returns. */
  function ProjectIndex(recs: seq<ProjectRecord>, name: string): (k: nat)
    ensures k < |RegisterProject(recs, name)|
  {
    var i := IndexOfName(recs, Normalize(name));
    if i < 0 then |recs| else i
  }

  /** The projects after GetProject(name): unchanged if one has the normalised name, else one empty project appended. */
  function RegisterProject(recs: seq<ProjectRecord>, name: string): (r: seq<ProjectRecord>)
  {
    if IndexOfName(recs, Normalize(name)) >= 0 then recs
    else recs + [NewProjectRecord(Normalize(name))]
  }

  /** Every name is in normal form and no two are equal. */
  predicate NormalAndDistinct(names: seq<string>)
  {
    (forall i | 0 <= i < |names| :: IsNormal(names[i]))
    && forall i, j | 0 <= i < j < |names| :: names[i] != names[j]
  }

  function RecordNames(recs: seq<ProjectRecord>): (r: seq<string>)
    ensures |r| == |recs| && forall i | 0 <= i < |recs| :: r[i] == recs[i].name
  {
    seq(|recs|, i requires 0 <= i < |recs| => recs[i].name)
  }

  /** No two projects share a name, and every name is in normal form. */
  predicate NamesNormalAndDistinct(recs: seq<ProjectRecord>)
  {
    NormalAndDistinct(RecordNames(recs))
  }

  /** GetProject returns a project named by the normalised input, at ProjectIndex, and keeps names normal and distinct. */
  lemma RegisterProjectSpec(recs: seq<ProjectRecord>, name: string)
    ensures var r := RegisterProject(recs, name); var k := ProjectIndex(recs, name);
      k < |r| && Normalize(r[k].name) == Normalize(name) && r[..|recs|] == recs
      && (|r| == |recs| || (|r| == |recs| + 1 && k == |recs| && r[k] == NewProjectRecord(Normalize(name))))
    ensures NamesNormalAndDistinct(recs) ==>
      NamesNormalAndDistinct(RegisterProject(recs, name))
      && RegisterProject(recs, name)[ProjectIndex(recs, name)].name == Normalize(name)
  {
    if IndexOfName(recs, Normalize(name)) >= 0 {
      RegisterFound(recs, name);
    } else {
      RegisterAppended(recs, name);
    }
  }

  /** A project with the normalised name exists: nothing is added and it is returned. */
  lemma RegisterFound(recs: seq<ProjectRecord>, name: string)
    requires IndexOfName(recs, Normalize(name)) >= 0
    ensures var k := ProjectIndex(recs, name);
      RegisterProject(recs, name) == recs && k < |recs| && Normalize(recs[k].name) == Normalize(name)
    ensures NamesNormalAndDistinct(recs) ==> recs[ProjectIndex(recs, name)].name == Normalize(name)
  {
    var i := IndexOfName(recs, Normalize(name));
    if NamesNormalAndDistinct(recs) {
      NormalizeFixesNormal(recs[i].name);
    }
  }

  /** No project has the normalised name: an empty one with that name is appended and returned. */
  lemma RegisterAppended(recs: seq<ProjectRecord>, name: string)
    requires IndexOfName(recs, Normalize(name)) < 0
    ensures var r := RegisterProject(recs, name); var n := Normalize(name);
      r == recs + [NewProjectRecord(n)] && ProjectIndex(recs, name) == |recs|
      && Normalize(n) == n && r[..|recs|] == recs
    ensures NamesNormalAndDistinct(recs) ==> NamesNormalAndDistinct(RegisterProject(recs, name))
  {
    var n := Normalize(name);
    NormalizeIsNormal(name);
    NormalizeFixesNormal(n);
    assert (recs + [NewProjectRecord(n)])[..|recs|] == recs;
    if NamesNormalAndDistinct(recs) {
      forall j | 0 <= j < |recs| ensures recs[j].name != n {
        NormalizeFixesNormal(recs[j].name);
      }
      NamesAppend(recs, NewProjectRecord(n));
    }
  }

  /** A project whose name is normal and new keeps the names normal and distinct. */
  lemma NamesAppend(recs: seq<ProjectRecord>, x: ProjectRecord)
    requires NamesNormalAndDistinct(recs) && IsNormal(x.name)
    requires forall j | 0 <= j < |recs| :: recs[j].name != x.name
    ensures NamesNormalAndDistinct(recs + [x])
  {
    var a, b := RecordNames(recs), RecordNames(recs + [x]);
    assert forall i | 0 <= i < |recs| :: b[i] == a[i];
    assert b[|recs|] == x.name;
  }

  /** Registering the same name twice adds at most one project and yields the same position both times. */
  lemma RegisterProjectTwice(recs: seq<ProjectRecord>, name: string)
    requires NamesNormalAndDistinct(recs)
    ensures var r1 := RegisterProject(recs, name);
      RegisterProject(r1, name) == r1 && ProjectIndex(r1, name) == ProjectIndex(recs, name)
  {
    var n := Normalize(name);
    var r1 := RegisterProject(recs, name);
    RegisterProjectSpec(recs, name);
    if IndexOfName(recs, n) < 0 {
      NormalizeIsNormal(name);
      NormalizeFixesNormal(n);
      assert Normalize(r1[|recs|].name) == n;
      assert IndexOfName(r1, n) == |recs|;
    }
  }

  /** Two spellings with the same normal form meet at the same project. */
  lemma RegisterProjectEquivalentNames(recs: seq<ProjectRecord>, a: string, b: string)
    requires Normalize(a) == Normalize(b)
    ensures RegisterProject(RegisterProject(recs, a), b) == RegisterProject(recs, a)
    ensures ProjectIndex(RegisterProject(recs, a), b) == ProjectIndex(recs, a)
  {
    var n := Normalize(a);
    var r1 := RegisterProject(recs, a);
    if IndexOfName(recs, n) < 0 {
      NormalizeIsNormal(a);
      NormalizeFixesNormal(n);
      assert Normalize(r1[|recs|].name) == n;
    }
  }

  /** The project list, with every project's findings. */
  class ProjectCollection {
    var projects: seq<Project>

    /** NewProjectCollection */
    constructor ()
      ensures Valid() && projects == []
    {
      projects := [];
    }

    /** All finding objects of all projects. */
    ghost function FindingObjects(): set<Finding>
      reads this, projects
    {
      FindingsOf(projects)
    }

    /** Everything the snapshot reads. */
    ghost function Footprint(): set<object>
      reads this, projects
    {
      {this} + (set p | p in projects :: p as object) + FindingObjects()
    }

    /**
     * Project names are in normal form and distinct; no finding object is listed twice in a project
     * or shared by two projects.
     */
    ghost predicate Valid()
      reads this, projects
    {
      NormalAndDistinct(ProjectNames(projects))
      && (forall i | 0 <= i < |projects| :: projects[i].Valid())
      && forall i, j | 0 <= i < j < |projects| :: forall f | f in projects[i].findings :: f !in projects[j].findings
    }

    function Records(): seq<ProjectRecord>
      reads this, projects, FindingObjects()
    {
      ProjectRecordsOf(projects)
    }

    /** ProjectCollection.GetProject: get-or-create by normalised name. */
    method GetProject(name: string) returns (p: Project)
      requires Valid()
      modifies this
      ensures Valid()
      ensures Records() == RegisterProject(old(Records()), name)
      ensures ProjectIndex(old(Records()), name) < |projects|
      ensures p == projects[ProjectIndex(old(Records()), name)] && p.name == Normalize(name)
      ensures projects == old(projects) || (fresh(p) && projects == old(projects) + [p])
      ensures fresh(Footprint() - old(Footprint()))
    {
      ghost var recs := Records();
      var n := Normalize(name);
      var i := 0;
      while i < |projects|
        invariant 0 <= i <= |projects|
        invariant forall j | 0 <= j < i :: Normalize(projects[j].name) != n
      {
        if Normalize(projects[i].name) == n {
          assert IndexOfName(recs, n) == i;
          NormalizeFixesNormal(projects[i].name);
          return projects[i];
        }
        i := i + 1;
      }
      assert IndexOfName(recs, n) == -1;
      NormalizeIsNormal(name);
      forall j | 0 <= j < |projects| ensures projects[j].name != n {
        NormalizeFixesNormal(projects[j].name);
      }
      p := AddProject(n);
      RegisterProjectSpec(recs, name);
    }

    /** The no-match branch of GetProject: a new, empty project named `n` goes at the end. */
    method AddProject(n: string) returns (p: Project)
      requires Valid() && IsNormal(n)
      requires forall j | 0 <= j < |projects| :: projects[j].name != n
      modifies this
      ensures Valid()
      ensures fresh(p) && projects == old(projects) + [p] && p.name == n
      ensures Records() == old(Records()) + [NewProjectRecord(n)]
      ensures fresh(Footprint() - old(Footprint()))
    {
      p := new Project(n);
      projects := projects + [p];
      ProjectAppended(this, p);
    }
  }

  function ProjectNames(ps: seq<Project>): (r: seq<string>)
    ensures |r| == |ps| && forall i | 0 <= i < |ps| :: r[i] == ps[i].name
  {
    seq(|ps|, i requires 0 <= i < |ps| => ps[i].name)
  }

  ghost function FindingsOf(ps: seq<Project>): set<Finding>
    reads ps
  {
    set p, f | p in ps && f in p.findings :: f
  }

  /** The snapshots of a list of projects, in order. */
  function ProjectRecordsOf(ps: seq<Project>): (r: seq<ProjectRecord>)
    reads ps, FindingsOf(ps)
    ensures |r| == |ps|
    ensures forall i | 0 <= i < |ps| :: r[i] == ps[i].Record()
    ensures RecordNames(r) == ProjectNames(ps)
  {
    if ps == [] then []
    else
      var last := ps[|ps| - 1];
      assert forall f | f in last.findings :: f in FindingsOf(ps);
      assert FindingsOf(ps[..|ps| - 1]) <= FindingsOf(ps);
      ProjectRecordsOf(ps[..|ps| - 1]) + [last.Record()]
  }

  /**
   * The frame of an update confined to project `p`: when nothing outside `p` and its findings has
   * changed, the project list is the same and every other project, with its findings, is unchanged.
   * `ChangedValid`, `ChangedRecords` and `ChangedFootprint` then give the rest: the collection stays
   * valid, the snapshot changes at the position of `p` alone, and the footprint only gains new objects.
   */
  twostate lemma ProjectChanged(c: ProjectCollection, new p: Project)
    requires old(c.Valid()) && p in old(c.projects)
    requires unchanged(c)
    requires forall o: object | o in old(c.Footprint()) && o != p && o !in old(p.findings) :: unchanged(o)
    requires p.Valid()
    requires fresh(p.Footprint() - old(p.Footprint()))
    ensures c.Valid()
    ensures forall k | 0 <= k < |c.projects| && c.projects[k] == p :: c.Records() == old(c.Records())[k := p.Record()]
    ensures fresh(c.Footprint() - old(c.Footprint()))
  {
    OthersUnchanged(c, p);
    ChangedValid(c, p);
    ChangedRecords(c, p);
    ChangedFootprint(c, p);
  }

  /** The snapshot half of `ProjectChanged`. */
  twostate lemma ChangedRecords(c: ProjectCollection, new p: Project)
    requires old(c.Valid()) && p in old(c.projects)
    requires unchanged(c)
    requires forall q | q in c.projects && q != p :: unchanged(q) && forall g | g in q.findings :: unchanged(g)
    ensures forall k | 0 <= k < |c.projects| && c.projects[k] == p :: c.Records() == old(c.Records())[k := p.Record()]
  {
    var ps := c.projects;
    forall j | 0 <= j < |ps| && ps[j] != p ensures ps[j].Record() == old(ps[j].Record()) {
      var fs := ps[j].findings;
      assert ps[j] in ps;
      assert fs == old(ps[j].findings);
      forall i | 0 <= i < |fs| ensures fs[i].Record() == old(fs[i].Record()) {
        assert fs[i] in fs;
      }
      assert RecordsOf(fs) == old(RecordsOf(fs));
    }
  }

  /** While no project's list of findings changes, neither does the footprint. */
  twostate lemma SameFootprint(c: ProjectCollection)
    requires unchanged(c)
    requires forall q | q in c.projects :: q.findings == old(q.findings)
    ensures c.Footprint() == old(c.Footprint())
  {
    forall g ensures g in c.FindingObjects() <==> g in old(c.FindingObjects()) {
      if g in c.FindingObjects() {
        var q :| q in c.projects && g in q.findings;
        assert old(q in c.projects && g in q.findings);
      }
      if g in old(c.FindingObjects()) {
        var q :| q in old(c.projects) && g in old(q.findings);
        assert q in c.projects && g in q.findings;
      }
    }
  }

  /** A project of the collection and its findings lie in the collection's footprint. */
  lemma ProjectFootprintIn(c: ProjectCollection, p: Project)
    requires p in c.projects
    ensures p.Footprint() <= c.Footprint()
  {
    forall o | o in p.Footprint() ensures o in c.Footprint() {
      if o != p {
        var g :| g in p.findings && o == g;
        assert g in c.FindingObjects();
      }
    }
  }

  /** A project whose footprint only grew by fresh objects still holds only its old findings and fresh ones. */
  twostate lemma FreshFindings(p: Project)
    requires fresh(p.Footprint() - old(p.Footprint()))
    ensures forall g | g in p.findings :: g in old(p.findings) || fresh(g)
  {
    forall g | g in p.findings ensures g in old(p.findings) || fresh(g) {
      assert g as object in p.Footprint();
      assert g as object in old(p.Footprint()) ==> old(g in p.findings);
    }
  }

  /** The validity half of `ProjectChanged`. */
  twostate lemma ChangedValid(c: ProjectCollection, new p: Project)
    requires old(c.Valid()) && p in old(c.projects)
    requires unchanged(c)
    requires forall q | q in c.projects && q != p :: unchanged(q) && forall g | g in q.findings :: unchanged(g)
    requires p.Valid()
    requires fresh(p.Footprint() - old(p.Footprint()))
    ensures c.Valid()
  {
    var ps := c.projects;
    var k :| 0 <= k < |ps| && ps[k] == p;
    FreshFindings(p);
    forall j | 0 <= j < |ps| ensures ps[j].Valid() {
      if ps[j] != p {
        assert ps[j] in ps;
      }
    }
    forall i, j | 0 <= i < j < |ps|
      ensures forall f | f in ps[i].findings :: f !in ps[j].findings
    {
      forall f | f in ps[i].findings ensures f !in ps[j].findings {
        if ps[i] == p {
          assert ps[j] in ps && ps[j] != p && (f in old(p.findings) || fresh(f));
        } else if ps[j] == p {
          assert ps[i] in ps && f in old(ps[i].findings);
          assert forall g | g in ps[j].findings :: g in old(ps[j].findings) || fresh(g);
        } else {
          assert ps[i] in ps && ps[j] in ps && f in old(ps[i].findings);
        }
      }
    }
  }

  /** The footprint half of `ProjectChanged`. */
  twostate lemma ChangedFootprint(c: ProjectCollection, new p: Project)
    requires p in old(c.projects)
    requires unchanged(c)
    requires forall q | q in c.projects && q != p :: unchanged(q)
    requires fresh(p.Footprint() - old(p.Footprint()))
    ensures fresh(c.Footprint() - old(c.Footprint()))
  {
    var ps := c.projects;
    FreshFindings(p);
    forall o | o in c.Footprint() ensures o in old(c.Footprint()) || fresh(o) {
      if o in c.FindingObjects() {
        var q, g :| q in ps && g in q.findings && o == g;
        assert g in old(q.findings) || fresh(g);
        assert old(q in c.projects && g in q.findings) ==> old(g in c.FindingObjects());
      } else if o != c {
        assert o in old(c.Footprint());
      }
    }
  }

  /** Under the frame of `ProjectChanged`, every other project and all its findings are unchanged. */
  twostate lemma OthersUnchanged(c: ProjectCollection, new p: Project)
    requires old(c.Valid()) && p in old(c.projects)
    requires unchanged(c)
    requires forall o: object | o in old(c.Footprint()) && o != p && o !in old(p.findings) :: unchanged(o)
    ensures forall q | q in c.projects && q != p :: unchanged(q) && forall g | g in q.findings :: unchanged(g)
  {
    var ps := c.projects;
    var k :| 0 <= k < |ps| && ps[k] == p;
    forall q | q in ps && q != p ensures unchanged(q) && forall g | g in q.findings :: unchanged(g) {
      var j :| 0 <= j < |ps| && ps[j] == q;
      assert old(q in c.Footprint());
      forall g | g in q.findings ensures unchanged(g) {
        assert g in old(q.findings);
        assert g in old(c.FindingObjects());
        if j < k {
          assert g !in old(ps[k].findings);
        } else {
          assert g !in old(ps[k].findings);
        }
      }
    }
  }

  /** Appending a fresh, empty, validly named project keeps the collection valid and extends the snapshot by it. */
  twostate lemma ProjectAppended(c: ProjectCollection, new p: Project)
    requires fresh(p) && p.findings == []
    requires c.projects == old(c.projects) + [p]
    requires forall q | q in old(c.projects) :: unchanged(q) && forall g | g in q.findings :: unchanged(g)
    requires old(c.Valid()) && IsNormal(p.name) && p.Valid()
    requires forall j | 0 <= j < |old(c.projects)| :: old(c.projects[j].name) != p.name
    ensures c.Valid()
    ensures c.Records() == old(c.Records()) + [p.Record()]
    ensures fresh(c.Footprint() - old(c.Footprint()))
  {
    AppendedValid(c, p);
    AppendedSnapshot(c, p);
    AppendedFootprint(c, p);
  }

  twostate lemma AppendedValid(c: ProjectCollection, new p: Project)
    requires fresh(p) && p.findings == []
    requires c.projects == old(c.projects) + [p]
    requires forall q | q in old(c.projects) :: unchanged(q)
    requires old(c.Valid()) && IsNormal(p.name) && p.Valid()
    requires forall j | 0 <= j < |old(c.projects)| :: old(c.projects[j].name) != p.name
    ensures c.Valid()
  {
    var ps := old(c.projects);
    forall j | 0 <= j < |ps| ensures c.projects[j].Valid() {
      assert ps[j] in old(c.projects);
    }
    assert ProjectNames(c.projects) == ProjectNames(ps) + [p.name];
    forall i, j | 0 <= i < j < |c.projects|
      ensures forall f | f in c.projects[i].findings :: f !in c.projects[j].findings
    {
      assert c.projects[i] == ps[i] && ps[i] in old(c.projects);
      if j < |ps| {
        assert ps[j] in old(c.projects);
      }
    }
  }

  twostate lemma AppendedSnapshot(c: ProjectCollection, new p: Project)
    requires c.projects == old(c.projects) + [p]
    requires forall q | q in old(c.projects) :: unchanged(q) && forall g | g in q.findings :: unchanged(g)
    ensures c.Records() == old(c.Records()) + [p.Record()]
  {
    var ps := old(c.projects);
    forall j | 0 <= j < |ps| ensures c.Records()[j] == old(c.Records())[j] {
      var fs := ps[j].findings;
      assert ps[j] in old(c.projects);
      forall i | 0 <= i < |fs| ensures fs[i].Record() == old(fs[i].Record()) {
        assert fs[i] in fs;
      }
      assert RecordsOf(fs) == old(RecordsOf(fs));
      assert c.projects[j] == ps[j];
    }
  }

  twostate lemma AppendedFootprint(c: ProjectCollection, new p: Project)
    requires fresh(p) && p.findings == []
    requires c.projects == old(c.projects) + [p]
    requires forall q | q in old(c.projects) :: unchanged(q)
    ensures fresh(c.Footprint() - old(c.Footprint()))
  {
    forall g | g in c.FindingObjects() ensures g in old(c.FindingObjects()) {
      var q :| q in c.projects && g in q.findings;
      assert q != p;
      assert q in old(c.projects);
      assert old(q in c.projects && g in q.findings);
    }
  }

  /** A snapshot's names, the projects already there keeping their places. */
  predicate NamesExtend(before: seq<ProjectRecord>, after: seq<ProjectRecord>)
  {
    |before| <= |after| && forall j | 0 <= j < |before| :: after[j].name == before[j].name
  }

  /** Some project carries the normal form of `name`. */
  predicate Registered(recs: seq<ProjectRecord>, name: string)
  {
    exists j | 0 <= j < |recs| :: recs[j].name == Normalize(name)
  }

  lemma RegisteredKept(before: seq<ProjectRecord>, after: seq<ProjectRecord>, name: string)
    requires NamesExtend(before, after) && Registered(before, name)
    ensures Registered(after, name)
  {
    var j :| 0 <= j < |before| && before[j].name == Normalize(name);
    assert after[j].name == Normalize(name);
  }

  /** What a collector's CollectFindings leaves in the collection, and how the run ends. */
  datatype Run = Run(recs: seq<ProjectRecord>, outcome: Outcome)
}
