/**
 * The ECR collector (querying/aws.go): the repositories of the registry are listed page by page,
 * then the scan findings of each repository's latest image are merged into the collection.
 *
 * As for the GitHub collector, the value layer states what a run does to the snapshot
 * `seq<ProjectRecord>`, and the methods at the end do it to the `ProjectCollection` objects and are
 * proved to match it. The three ECR calls (DescribeRepositories, DescribeImages,
 * DescribeImageScanFindings) are answered from supplied responses.
 */
module Aws {
  import opened Wrappers
  import opened Config
  import opened Paging
  import opened Querying
  import Ascii

  /** The key of the ECR link in a project's links. */
  const EcrLinkKey := "ECR"

  /** The attribute key naming the vulnerable package. */
  const PackageNameKey := "package_name"

  /** The error getLatestImage returns for a repository without images. */
  const NoImagesError := "no images found in the repository"

  /** The panic of indexing the last tag of an image that has none. */
  const NoTagPanic := "index out of range [-1]"

  /** `ecrSeverities`: ECR severity names to severities. */
  const EcrSeverities: map<string, Severity> := map[
    "INFORMATIONAL" := Info,
    "LOW" := Low,
    "MEDIUM" := Moderate,
    "HIGH" := High,
    "CRITICAL" := Critical,
    "UNDEFINED" := Undefined]

  /** An attribute of a scan finding; a nil key never matches. */
  datatype Attribute = Attribute(key: Option<string>, value: string)

  /** One finding of an image scan. */
  datatype ScanFinding = ScanFinding(name: string, description: string, severity: string, attributes: seq<Attribute>)

  /** A repository of the registry. */
  datatype Repository = Repository(name: string, uri: string)

  /** An image of a repository; its push time is a plain number. */
  datatype ImageDetail = ImageDetail(digest: string, tags: seq<string>, pushedAt: int)

  /**
   * The answers ECR gives to one run: the repository pages, for each repository name the answer to
   * its DescribeImages call, and the answers to its DescribeImageScanFindings calls.
   */
  datatype Responses = Responses(
    repoPages: seq<Result<TokenPage<Repository>>>,
    images: map<string, Result<seq<ImageDetail>>>,
    scanPages: map<string, seq<Result<TokenPage<ScanFinding>>>>)

  /** The ECR severity names keep their meaning, MEDIUM being Moderate; anything else reads as the zero severity. */
  lemma EcrSeverityLookups()
    ensures Lookup(EcrSeverities, "MEDIUM", ZeroSeverity) == Moderate
    ensures Lookup(EcrSeverities, "INFORMATIONAL", ZeroSeverity) == Info
    ensures forall name | name !in EcrSeverities :: Lookup(EcrSeverities, name, ZeroSeverity) == ZeroSeverity
  {
  }

  // ---------------------------------------------------------------------------------------------
  // Parsing a finding

  predicate AllLetters(s: string)
  {
    forall i | 0 <= i < |s| :: Ascii.IsLetter(s[i])
  }

  predicate AllDigits(s: string)
  {
    forall i | 0 <= i < |s| :: Ascii.IsDigit(s[i])
  }

  /**
   * `s` matches `^([A-Za-z]+)-\d+-\d+$` with its two dashes at `i` and `j`: letters, a dash,
   * digits, a dash, digits, no part empty.
   */
  predicate FindingNameAt(s: string, i: nat, j: nat)
  {
    0 < i && i + 1 < j && j + 1 < |s| && s[i] == '-' && s[j] == '-'
    && AllLetters(s[..i]) && AllDigits(s[i + 1..j]) && AllDigits(s[j + 1..])
  }

  /** The length of the run of letters `s` starts with. */
  function LetterRun(s: string): (n: nat)
    ensures n <= |s| && AllLetters(s[..n]) && (n < |s| ==> !Ascii.IsLetter(s[n]))
  {
    if s == [] || !Ascii.IsLetter(s[0]) then 0
    else
      var n := LetterRun(s[1..]);
      assert s[..n + 1] == [s[0]] + s[1..][..n];
      n + 1
  }

  /** The length of the run of digits `s` starts with. */
  function DigitRun(s: string): (n: nat)
    ensures n <= |s| && AllDigits(s[..n]) && (n < |s| ==> !Ascii.IsDigit(s[n]))
  {
    if s == [] || !Ascii.IsDigit(s[0]) then 0
    else
      var n := DigitRun(s[1..]);
      assert s[..n + 1] == [s[0]] + s[1..][..n];
      n + 1
  }

  /** extractFindingType: the letters before the first dash of a name shaped `CVE-2021-1234`, else "". */
  function ExtractFindingType(name: string): string
  {
    var i := LetterRun(name);
    if 0 < i < |name| && name[i] == '-' then
      var rest := name[i + 1..];
      var j := DigitRun(rest);
      if 0 < j && j + 1 < |rest| && rest[j] == '-' && AllDigits(rest[j + 1..]) then name[..i] else ""
    else ""
  }

  /** A run of letters ended by a non-letter is the whole letter run. */
  lemma {:induction false} LetterRunExact(s: string, i: nat)
    requires i < |s| && AllLetters(s[..i]) && !Ascii.IsLetter(s[i])
    ensures LetterRun(s) == i
  {
    if i > 0 {
      assert Ascii.IsLetter(s[..i][0]);
      assert s[1..][..i - 1] == s[..i][1..];
      LetterRunExact(s[1..], i - 1);
    }
  }

  /** A run of digits ended by a non-digit is the whole digit run. */
  lemma {:induction false} DigitRunExact(s: string, i: nat)
    requires i < |s| && AllDigits(s[..i]) && !Ascii.IsDigit(s[i])
    ensures DigitRun(s) == i
  {
    if i > 0 {
      assert Ascii.IsDigit(s[..i][0]);
      assert s[1..][..i - 1] == s[..i][1..];
      DigitRunExact(s[1..], i - 1);
    }
  }

  /** A type found comes with the dashes that show the name matches. */
  lemma ExtractFindingTypeFound(name: string)
    requires ExtractFindingType(name) != ""
    ensures exists i: nat, j: nat :: FindingNameAt(name, i, j)
  {
    var i := LetterRun(name);
    assert 0 < i < |name| && name[i] == '-';
    var rest := name[i + 1..];
    var j := DigitRun(rest);
    assert 0 < j && j + 1 < |rest| && rest[j] == '-' && AllDigits(rest[j + 1..]);
    assert name[i + 1 + j] == rest[j];
    var digits, tail := name[i + 1..i + 1 + j], name[i + 1 + j + 1..];
    assert AllDigits(digits) by {
      forall k | 0 <= k < |digits| ensures Ascii.IsDigit(digits[k]) {
        assert digits[k] == rest[..j][k];
      }
    }
    assert AllDigits(tail) by {
      forall k | 0 <= k < |tail| ensures Ascii.IsDigit(tail[k]) {
        assert tail[k] == rest[j + 1..][k];
      }
    }
    assert FindingNameAt(name, i, i + 1 + j);
  }

  /** Any dashes that show the name matches give the type the letters before the first one. */
  lemma ExtractFindingTypeMatched(name: string, i: nat, j: nat)
    requires FindingNameAt(name, i, j)
    ensures ExtractFindingType(name) == name[..i]
  {
    LetterRunExact(name, i);
    var rest := name[i + 1..];
    assert rest[..j - i - 1] == name[i + 1..j];
    assert rest[j - i - 1 + 1..] == name[j + 1..];
    DigitRunExact(rest, j - i - 1);
  }

  /**
   * extractFindingType finds a type exactly when the name matches `^([A-Za-z]+)-\d+-\d+$`, and the
   * type is then the captured run of letters: the name is the type, a dash, digits, a dash, digits.
   */
  lemma ExtractFindingTypeSpec(name: string)
    ensures ExtractFindingType(name) != "" <==> exists i: nat, j: nat :: FindingNameAt(name, i, j)
    ensures forall i: nat, j: nat | FindingNameAt(name, i, j) :: ExtractFindingType(name) == name[..i]
  {
    if ExtractFindingType(name) != "" {
      ExtractFindingTypeFound(name);
    }
    forall i: nat, j: nat | FindingNameAt(name, i, j) ensures ExtractFindingType(name) == name[..i] {
      ExtractFindingTypeMatched(name, i, j);
    }
  }

  /** A CVE name gives its scheme. */
  lemma ExtractFindingTypeOfCve()
    ensures ExtractFindingType("CVE-2021-1234") == "CVE"
  {
    var s := "CVE-2021-1234";
    assert |s| == 13 && s[..4] == "CVE-" && s[8] == '-';
    assert s[4..8] == "2021" && AllDigits(s[4..8]);
    assert s[9..] == "1234" && AllDigits(s[9..]);
    CveNameType(s);
  }

  /** A name missing its second number gives no type. */
  lemma ExtractFindingTypeOfShortName()
    ensures ExtractFindingType("CVE-2021") == ""
  {
    var short := "CVE-2021";
    assert short[..3] == "CVE";
    LetterRunExact(short, 3);
    assert short[4..] == "2021";
  }

  /** A scheme holding a digit gives no type. */
  lemma ExtractFindingTypeOfDigitInScheme()
    ensures ExtractFindingType("ALAS2-2023-1987") == ""
  {
    var alas := "ALAS2-2023-1987";
    assert alas[..4] == "ALAS";
    LetterRunExact(alas, 4);
  }

  /** Any name of the shape `CVE-dddd-dddd` has the type "CVE". */
  lemma CveNameType(name: string)
    requires |name| == 13 && name[..4] == "CVE-" && name[8] == '-'
    requires AllDigits(name[4..8]) && AllDigits(name[9..])
    ensures ExtractFindingType(name) == "CVE"
  {
    ExtractFindingTypeSpec(name);
    assert name[..3] == "CVE";
    assert AllLetters(name[..3]);
    assert FindingNameAt(name, 3, 8);
  }

  /** extractPackageName: the value of the first attribute keyed "package_name", else "". */
  function ExtractPackageName(attributes: seq<Attribute>): (name: string)
    ensures (forall i | 0 <= i < |attributes| :: attributes[i].key != Some(PackageNameKey)) ==> name == ""
    ensures (exists i | 0 <= i < |attributes| :: attributes[i].key == Some(PackageNameKey))
      ==>
      exists i | 0 <= i < |attributes| :: attributes[i].key == Some(PackageNameKey)
        && name == attributes[i].value
        && forall j | 0 <= j < i :: attributes[j].key != Some(PackageNameKey)
  {
    if attributes == [] then ""
    else if attributes[0].key == Some(PackageNameKey) then attributes[0].value
    else
      var name := ExtractPackageName(attributes[1..]);
      assert forall i | 1 <= i < |attributes| :: attributes[i] == attributes[1..][i - 1];
      name
  }

  // ---------------------------------------------------------------------------------------------
  // The latest image

  /** Image `k` is the one the stable newest-first sort puts first: the earliest of those pushed last. */
  predicate IsLatest(images: seq<ImageDetail>, k: nat)
  {
    k < |images|
    && (forall i | 0 <= i < |images| :: images[i].pushedAt <= images[k].pushedAt)
    && forall i | 0 <= i < k :: images[i].pushedAt < images[k].pushedAt
  }

  /** The position of the latest image of a non-empty list. */
  function LatestIndex(images: seq<ImageDetail>): (k: nat)
    requires images != []
    ensures k < |images|
  {
    if |images| == 1 then 0
    else
      var k := LatestIndex(images[..|images| - 1]);
      if images[k].pushedAt < images[|images| - 1].pushedAt then |images| - 1 else k
  }

  /** The chosen position is the latest image, and no other position is. */
  lemma {:induction false} LatestIndexSpec(images: seq<ImageDetail>)
    requires images != []
    ensures IsLatest(images, LatestIndex(images))
    ensures forall k | IsLatest(images, k) :: k == LatestIndex(images)
  {
    if |images| > 1 {
      var init := images[..|images| - 1];
      LatestIndexSpec(init);
      assert forall i | 0 <= i < |init| :: init[i] == images[i];
    }
  }

  /**
   * getLatestImage: the image `sort.SliceStable` moves to the front when sorting newest first; no
   * images is an error, as is a failed DescribeImages call.
   */
  function LatestImage(images: Result<seq<ImageDetail>>): (r: Result<ImageDetail>)
    ensures images.Failure? ==> r == Failure(images.error)
    ensures images.Success? && images.value == [] ==> r == Failure(NoImagesError)
    ensures images.Success? && images.value != [] ==>
      r.Success? && exists k: nat | IsLatest(images.value, k) :: r.value == images.value[k]
  {
    match images
    case Failure(e) => Failure(e)
    case Success(list) =>
      if list == [] then Failure(NoImagesError)
      else
        LatestIndexSpec(list);
        Success(list[LatestIndex(list)])
  }

  // ---------------------------------------------------------------------------------------------
  // One scan finding

  /** The identifiers of a scan finding of type `t`: the type under its own name. */
  function ScanIdentifiers(t: string): IdentifierMap
  {
    map[t := t]
  }

  /**
   * The fields a scan finding writes into the finding GetFinding returned: the description and the
   * severity every time, the package only when the finding names one; the ecosystem is left alone.
   */
  function FillFromScan(r: FindingRecord, v: ScanFinding): FindingRecord
  {
    var pkg := ExtractPackageName(v.attributes);
    r.(description := v.description,
       packageName := if pkg != "" then pkg else r.packageName,
       severity := Lookup(EcrSeverities, v.severity, ZeroSeverity))
  }

  /** Successive scan findings written into one finding. */
  function FillAllFromScans(r: FindingRecord, vs: seq<ScanFinding>): FindingRecord
    decreases |vs|
  {
    if vs == [] then r else FillAllFromScans(FillFromScan(r, vs[0]), vs[1..])
  }

  /** The last non-empty string, or "". */
  function LastNonEmpty(ss: seq<string>): string
  {
    if ss == [] then ""
    else if ss[|ss| - 1] != "" then ss[|ss| - 1]
    else LastNonEmpty(ss[..|ss| - 1])
  }

  function PackagesOf(vs: seq<ScanFinding>): (r: seq<string>)
    ensures |r| == |vs| && forall i | 0 <= i < |vs| :: r[i] == ExtractPackageName(vs[i].attributes)
  {
    seq(|vs|, i requires 0 <= i < |vs| => ExtractPackageName(vs[i].attributes))
  }

  /** Over a run of scan findings, the description and severity are the last one's; identifiers and ecosystem stay. */
  lemma {:induction false} FillAllFromScansFields(r: FindingRecord, vs: seq<ScanFinding>)
    ensures var f := FillAllFromScans(r, vs);
      f.identifiers == r.identifiers && f.ecosystem == r.ecosystem
      && f.description == (if vs == [] then r.description else vs[|vs| - 1].description)
      && f.severity == (if vs == [] then r.severity else Lookup(EcrSeverities, vs[|vs| - 1].severity, ZeroSeverity))
    decreases |vs|
  {
    if vs != [] {
      var r' := FillFromScan(r, vs[0]);
      FillAllFromScansFields(r', vs[1..]);
      assert FillAllFromScans(r, vs) == FillAllFromScans(r', vs[1..]);
      if |vs| > 1 {
        assert vs[1..][|vs| - 2] == vs[|vs| - 1];
      }
    }
  }

  /** Over a run of scan findings, the package is the last one named, or the one the finding had. */
  lemma {:induction false} FillAllFromScansPackage(r: FindingRecord, vs: seq<ScanFinding>)
    ensures FillAllFromScans(r, vs).packageName == LastNonEmpty([r.packageName] + PackagesOf(vs))
    decreases |vs|
  {
    if vs == [] {
      assert [r.packageName] + PackagesOf(vs) == [r.packageName];
      assert LastNonEmpty([r.packageName]) == if r.packageName != "" then r.packageName else LastNonEmpty([]);
    } else {
      var r' := FillFromScan(r, vs[0]);
      FillAllFromScansPackage(r', vs[1..]);
      LastNonEmptyShift(r.packageName, PackagesOf(vs));
      assert PackagesOf(vs)[1..] == PackagesOf(vs[1..]);
    }
  }

  /**
   * The merge policy over any run of scan findings landing on one finding: the description and the
   * severity are the last one's, the package is the last one named, and the identifiers and the
   * ecosystem are left alone.
   */
  lemma FillAllFromScansPolicy(r: FindingRecord, vs: seq<ScanFinding>)
    ensures var f := FillAllFromScans(r, vs);
      f.identifiers == r.identifiers && f.ecosystem == r.ecosystem
      && f.description == (if vs == [] then r.description else vs[|vs| - 1].description)
      && f.severity == (if vs == [] then r.severity else Lookup(EcrSeverities, vs[|vs| - 1].severity, ZeroSeverity))
      && f.packageName == LastNonEmpty([r.packageName] + PackagesOf(vs))
  {
    FillAllFromScansFields(r, vs);
    FillAllFromScansPackage(r, vs);
  }

  /** Replacing the first string by the next one when that one is non-empty, else keeping it, keeps the last non-empty string. */
  lemma {:induction false} LastNonEmptyShift(first: string, rest: seq<string>)
    requires rest != []
    ensures LastNonEmpty([if rest[0] != "" then rest[0] else first] + rest[1..]) == LastNonEmpty([first] + rest)
    decreases |rest|
  {
    var a := [if rest[0] != "" then rest[0] else first] + rest[1..];
    var b := [first] + rest;
    if |rest| > 1 {
      assert a[..|a| - 1] == [if rest[0] != "" then rest[0] else first] + rest[..|rest| - 1][1..];
      assert b[..|b| - 1] == [first] + rest[..|rest| - 1];
      LastNonEmptyShift(first, rest[..|rest| - 1]);
    } else {
      assert b[..|b| - 1] == [first];
    }
  }

  /** One scan finding of type `t` merged into a project: GetFinding on `{t: t}`, then the fill. */
  function ApplyScanFinding(p: ProjectRecord, t: string, v: ScanFinding): ProjectRecord
  {
    var ids := ScanIdentifiers(t);
    var fs := MergeFinding(p.findings, ids);
    var m := FindingIndex(p.findings, ids);
    MergedFindingHasIdentifiers(p.findings, ids);
    p.(findings := fs[m := FillFromScan(fs[m], v)])
  }

  /**
   * A scan finding touches one finding, the one GetFinding picks, which ends up carrying the type
   * under its own name; the project's name, links and owners stay, and so do all other findings.
   */
  lemma ApplyScanFindingSpec(p: ProjectRecord, t: string, v: ScanFinding)
    ensures var ids := ScanIdentifiers(t); var m := FindingIndex(p.findings, ids);
      var r := ApplyScanFinding(p, t, v);
      r.name == p.name && r.links == p.links && r.owners == p.owners
      && m < |r.findings| && |r.findings| == (if m < |p.findings| then |p.findings| else |p.findings| + 1)
      && t in r.findings[m].identifiers && r.findings[m].identifiers[t] == t
      && r.findings[m].description == v.description
      && r.findings[m].severity == Lookup(EcrSeverities, v.severity, ZeroSeverity)
      && (forall j | 0 <= j < |p.findings| && j != m :: r.findings[j] == p.findings[j])
  {
    var ids := ScanIdentifiers(t);
    MergedFindingHasIdentifiers(p.findings, ids);
    var last := LastMatch(p.findings, ids);
    if last >= 0 {
      MergeFindingUpdates(p.findings, ids, last);
    } else {
      MergeFindingAppends(p.findings, ids);
    }
  }

  /**
   * The findings of one page merged in order; the first finding whose name has no type ends the
   * page (the `break` leaves the range loop).
   */
  function ApplyScanPage(p: ProjectRecord, vs: seq<ScanFinding>): ProjectRecord
    decreases |vs|
  {
    if vs == [] then p
    else
      var t := ExtractFindingType(vs[0].name);
      if t == "" then p else ApplyScanPage(ApplyScanFinding(p, t, vs[0]), vs[1..])
  }

  /** Everything on a page after a finding without a type is ignored. */
  lemma {:induction false} ApplyScanPageStops(p: ProjectRecord, vs: seq<ScanFinding>, i: nat)
    requires i < |vs| && ExtractFindingType(vs[i].name) == ""
    ensures ApplyScanPage(p, vs) == ApplyScanPage(p, vs[..i])
    decreases i
  {
    if i > 0 {
      var t := ExtractFindingType(vs[0].name);
      if t != "" {
        assert vs[1..][..i - 1] == vs[..i][1..];
        ApplyScanPageStops(ApplyScanFinding(p, t, vs[0]), vs[1..], i - 1);
      }
    }
  }

  lemma ApplyScanPageUnfold(p: ProjectRecord, vs: seq<ScanFinding>, i: nat)
    requires i < |vs| && ExtractFindingType(vs[i].name) != ""
    ensures ApplyScanPage(p, vs[i..]) == ApplyScanPage(ApplyScanFinding(p, ExtractFindingType(vs[i].name), vs[i]), vs[i + 1..])
  {
    assert vs[i..][1..] == vs[i + 1..];
  }

  lemma {:induction false} ApplyScanPageKeeps(p: ProjectRecord, vs: seq<ScanFinding>)
    ensures ApplyScanPage(p, vs).name == p.name
    ensures ApplyScanPage(p, vs).links == p.links
    ensures ApplyScanPage(p, vs).owners == p.owners
    decreases |vs|
  {
    if vs != [] {
      var t := ExtractFindingType(vs[0].name);
      if t != "" {
        ApplyScanFindingSpec(p, t, vs[0]);
        ApplyScanPageKeeps(ApplyScanFinding(p, t, vs[0]), vs[1..]);
      }
    }
  }

  /**
   * The identifiers of a scan finding hold only its type, so two findings of the same type, such
   * as two CVEs of one image, land on the same finding: the second adds none and overwrites the
   * first one's description and severity.
   */
  lemma SameTypeFindingsMerge(p: ProjectRecord, v1: ScanFinding, v2: ScanFinding)
    requires ExtractFindingType(v1.name) != "" && ExtractFindingType(v2.name) == ExtractFindingType(v1.name)
    ensures var ids := ScanIdentifiers(ExtractFindingType(v1.name)); var m := FindingIndex(p.findings, ids);
      var r := ApplyScanPage(p, [v1, v2]);
      |r.findings| == |ApplyScanPage(p, [v1]).findings| && m < |r.findings|
      && r.findings[m].description == v2.description
      && r.findings[m].severity == Lookup(EcrSeverities, v2.severity, ZeroSeverity)
  {
    var t := ExtractFindingType(v1.name);
    var p1 := ApplyScanFinding(p, t, v1);
    SameTypeStaysPut(p, t, v1);
    ApplyScanFindingSpec(p1, t, v2);
    ApplyScanPageOne(p, v1);
    ApplyScanPageOne(p1, v2);
    ApplyScanPageTwo(p, v1, v2);
  }

  /** After a finding of type `t` is merged, GetFinding on `{t: t}` picks that same finding again. */
  lemma SameTypeStaysPut(p: ProjectRecord, t: string, v: ScanFinding)
    ensures var ids := ScanIdentifiers(t);
      FindingIndex(ApplyScanFinding(p, t, v).findings, ids) == FindingIndex(p.findings, ids)
  {
    var ids := ScanIdentifiers(t);
    var m := FindingIndex(p.findings, ids);
    var p1 := ApplyScanFinding(p, t, v);
    ApplyScanFindingSpec(p, t, v);
    assert SharesIdentifier(p1.findings[m].identifiers, ids);
    forall j | m < j < |p1.findings| ensures !SharesIdentifier(p1.findings[j].identifiers, ids) {
      assert p1.findings[j] == p.findings[j];
    }
    MergeFindingUpdates(p1.findings, ids, m);
  }

  lemma ApplyScanPageOne(p: ProjectRecord, v: ScanFinding)
    requires ExtractFindingType(v.name) != ""
    ensures ApplyScanPage(p, [v]) == ApplyScanFinding(p, ExtractFindingType(v.name), v)
  {
    assert [v][1..] == [];
  }

  lemma ApplyScanPageTwo(p: ProjectRecord, v1: ScanFinding, v2: ScanFinding)
    requires ExtractFindingType(v1.name) != ""
    ensures ApplyScanPage(p, [v1, v2]) == ApplyScanPage(ApplyScanFinding(p, ExtractFindingType(v1.name), v1), [v2])
  {
    assert [v1, v2][1..] == [v2];
  }

  // ---------------------------------------------------------------------------------------------
  // One repository

  /** What the scan-findings loop leaves behind: the project and the error it returns. */
  datatype ScanPass = ScanPass(project: ProjectRecord, err: Option<string>)

  /**
   * The DescribeImageScanFindings loop from call `i` on: each page's findings merged, until a
   * failed call or a page without a NextToken. A page cut short by `break` does not end the loop.
   */
  function ScanWalk(p: ProjectRecord, pages: seq<Result<TokenPage<ScanFinding>>>, i: nat): ScanPass
    decreases |pages| - i
  {
    match At(pages, i)
    case Failure(e) => ScanPass(p, Some(e))
    case Success(page) =>
      var p' := ApplyScanPage(p, page.items);
      if page.nextToken.None? then ScanPass(p', None) else ScanWalk(p', pages, i + 1)
  }

  /** One successful page of the walk: its findings merged, then the walk from the next call. */
  lemma ScanWalkUnfold(p: ProjectRecord, pages: seq<Result<TokenPage<ScanFinding>>>, i: nat)
    requires At(pages, i).Success?
    ensures var page := At(pages, i).value; var p' := ApplyScanPage(p, page.items);
      ScanWalk(p, pages, i) == if page.nextToken.None? then ScanPass(p', None) else ScanWalk(p', pages, i + 1)
  {
  }

  /** The loop ends without error exactly when the last call of its token walk succeeds. */
  lemma {:induction false} ScanWalkEnds(p: ProjectRecord, pages: seq<Result<TokenPage<ScanFinding>>>, i: nat, token: Option<string>)
    ensures var last := At(pages, i + |TokenWalk(pages, i, token)| - 1);
      (ScanWalk(p, pages, i).err.None? <==> last.Success?)
      && (last.Failure? ==> ScanWalk(p, pages, i).err == Some(last.error))
    decreases |pages| - i
  {
    var r := At(pages, i);
    if r.Success? && r.value.nextToken.Some? {
      ScanWalkEnds(ApplyScanPage(p, r.value.items), pages, i + 1, r.value.nextToken);
    }
  }

  lemma {:induction false} ScanWalkKeeps(p: ProjectRecord, pages: seq<Result<TokenPage<ScanFinding>>>, i: nat)
    ensures ScanWalk(p, pages, i).project.name == p.name
    ensures ScanWalk(p, pages, i).project.links == p.links
    ensures ScanWalk(p, pages, i).project.owners == p.owners
    decreases |pages| - i
  {
    match At(pages, i)
    case Failure(_) =>
    case Success(page) =>
      ApplyScanPageKeeps(p, page.items);
      if page.nextToken.Some? {
        ScanWalkKeeps(ApplyScanPage(p, page.items), pages, i + 1);
      }
  }

  /** The scan answers for one repository. */
  function ScanPagesOf(src: Responses, name: string): seq<Result<TokenPage<ScanFinding>>>
  {
    Lookup(src.scanPages, name, [])
  }

  /** The DescribeImages answer for one repository. */
  function ImagesOf(src: Responses, name: string): Result<seq<ImageDetail>>
  {
    Lookup(src.images, name, Failure(NoResponse))
  }

  /** The snapshot after GetProject on the repository's name and its ECR link. */
  function LinkRepository(recs: seq<ProjectRecord>, repo: Repository): seq<ProjectRecord>
  {
    var r := RegisterProject(recs, repo.name);
    var k := ProjectIndex(recs, repo.name);
    r[k := r[k].(links := r[k].links[EcrLinkKey := repo.uri])]
  }

  /**
   * What processImageScanFindings leaves behind: the snapshot, the error it returns, and the panic
   * that stops the process.
   */
  datatype RepoPass = RepoPass(recs: seq<ProjectRecord>, err: Option<string>, panic: Option<string>)

  /**
   * processImageScanFindings: register and link the project, find the latest image (an error ends
   * the repository), index its last tag (none is a panic), then walk its scan findings.
   */
  function ImageScanFindings(recs: seq<ProjectRecord>, repo: Repository, src: Responses): RepoPass
  {
    var linked := LinkRepository(recs, repo);
    var k := ProjectIndex(recs, repo.name);
    match LatestImage(ImagesOf(src, repo.name))
    case Failure(e) => RepoPass(linked, Some(e), None)
    case Success(image) =>
      if image.tags == [] then RepoPass(linked, None, Some(NoTagPanic))
      else
        var s := ScanWalk(linked[k], ScanPagesOf(src, repo.name), 0);
        RepoPass(linked[k := s.project], s.err, None)
  }

  /**
   * A repository's pass registers its project, links it to the repository and changes no other
   * project; the names stay normal and distinct.
   */
  lemma ImageScanFindingsSpec(recs: seq<ProjectRecord>, repo: Repository, src: Responses)
    requires NamesNormalAndDistinct(recs)
    ensures var out := ImageScanFindings(recs, repo, src).recs; var k := ProjectIndex(recs, repo.name);
      NamesExtend(recs, out) && NamesNormalAndDistinct(out) && Registered(out, repo.name)
      && k < |out| && out[k].name == Normalize(repo.name)
      && EcrLinkKey in out[k].links && out[k].links[EcrLinkKey] == repo.uri
      && (forall j | 0 <= j < |recs| && j != k :: out[j] == recs[j])
      && |out| <= |recs| + 1
  {
    var r := RegisterProject(recs, repo.name);
    var k := ProjectIndex(recs, repo.name);
    RegisterProjectSpec(recs, repo.name);
    var linked := LinkRepository(recs, repo);
    assert RecordNames(linked) == RecordNames(r);
    var out := ImageScanFindings(recs, repo, src).recs;
    if LatestImage(ImagesOf(src, repo.name)).Success? && LatestImage(ImagesOf(src, repo.name)).value.tags != [] {
      ScanWalkKeeps(linked[k], ScanPagesOf(src, repo.name), 0);
      assert RecordNames(out) == RecordNames(linked);
    }
    forall j | 0 <= j < |recs| && j != k ensures out[j] == recs[j] {
      assert r[j] == r[..|recs|][j];
    }
    forall j | 0 <= j < |recs| ensures out[j].name == recs[j].name {
      assert r[j] == r[..|recs|][j];
    }
    assert out[k].name == r[k].name;
  }

  // ---------------------------------------------------------------------------------------------
  // A whole run

  /** What the repository loop leaves behind: the snapshot and the panic that stopped it, if any. */
  datatype ReposPass = ReposPass(recs: seq<ProjectRecord>, panic: Option<string>)

  /** The repository loop of CollectFindings: a repository's error is only logged; a panic ends everything. */
  function ProcessRepositories(recs: seq<ProjectRecord>, repos: seq<Repository>, src: Responses): ReposPass
    decreases |repos|
  {
    if repos == [] then ReposPass(recs, None)
    else
      var r := ImageScanFindings(recs, repos[0], src);
      if r.panic.Some? then ReposPass(r.recs, r.panic) else ProcessRepositories(r.recs, repos[1..], src)
  }

  /**
   * Unless a panic stops the loop, every listed repository gets its project, whatever errors the
   * others met, and the projects already there keep their places.
   */
  lemma {:induction false} ProcessRepositoriesRegistersAll(recs: seq<ProjectRecord>, repos: seq<Repository>, src: Responses)
    requires NamesNormalAndDistinct(recs)
    ensures var out := ProcessRepositories(recs, repos, src);
      NamesExtend(recs, out.recs) && NamesNormalAndDistinct(out.recs)
      && (out.panic.None? ==> forall i | 0 <= i < |repos| :: Registered(out.recs, repos[i].name))
    decreases |repos|
  {
    if repos != [] {
      var r := ImageScanFindings(recs, repos[0], src);
      ImageScanFindingsSpec(recs, repos[0], src);
      if r.panic.None? {
        ProcessRepositoriesRegistersAll(r.recs, repos[1..], src);
        var out := ProcessRepositories(recs, repos, src);
        assert out == ProcessRepositories(r.recs, repos[1..], src);
        if out.panic.None? {
          forall i | 0 <= i < |repos| ensures Registered(out.recs, repos[i].name) {
            if i == 0 {
              RegisteredKept(r.recs, out.recs, repos[0].name);
            } else {
              assert repos[1..][i - 1] == repos[i];
            }
          }
        }
      }
    }
  }

  /**
   * CollectFindings: list every repository page by page; a failed listing call returns its error
   * before any repository is processed; then each repository in turn.
   */
  function Collect(recs: seq<ProjectRecord>, src: Responses): Run
  {
    match Listing(src.repoPages, 0)
    case Failure(e) => Run(recs, Failed(e))
    case Success(repos) =>
      var p := ProcessRepositories(recs, repos, src);
      Run(p.recs, if p.panic.Some? then Aborted(p.panic.value) else Completed)
  }

  /**
   * A failed DescribeRepositories call fails the run with that call's error and leaves the
   * collection as it was; otherwise the repositories processed are all listed pages, in order.
   */
  lemma CollectListing(recs: seq<ProjectRecord>, src: Responses)
    ensures var ts := TokenWalk(src.repoPages, 0, None); var last := At(src.repoPages, |ts| - 1);
      (last.Failure? ==> Collect(recs, src) == Run(recs, Failed(last.error)))
      && (last.Success? ==>
            var p := ProcessRepositories(recs, ItemsFrom(src.repoPages, 0, |ts|), src);
            Collect(recs, src) == Run(p.recs, if p.panic.Some? then Aborted(p.panic.value) else Completed))
  {
    ListingSpec(src.repoPages, 0);
  }

  /** A run that completes has a project for every repository of every listed page. */
  lemma CompletedRunRegistersAll(recs: seq<ProjectRecord>, src: Responses)
    requires NamesNormalAndDistinct(recs)
    requires Collect(recs, src).outcome.Completed?
    ensures var out := Collect(recs, src).recs;
      NamesExtend(recs, out) && NamesNormalAndDistinct(out)
      && forall repo | repo in Listing(src.repoPages, 0).value :: Registered(out, repo.name)
  {
    var repos := Listing(src.repoPages, 0).value;
    ProcessRepositoriesRegistersAll(recs, repos, src);
    forall repo | repo in repos ensures Registered(Collect(recs, src).recs, repo.name) {
      var i :| 0 <= i < |repos| && repos[i] == repo;
    }
  }

  // ---------------------------------------------------------------------------------------------
  // The collector on the collection objects

  /** The listing of all pages so far, `all`, in front of the listing of the pages still to come. */
  function Prefixed<T>(all: seq<T>, rest: Result<seq<T>>): Result<seq<T>>
  {
    match rest
    case Failure(e) => Failure(e)
    case Success(items) => Success(all + items)
  }

  lemma PrefixedEmpty<T>(rest: Result<seq<T>>)
    ensures Prefixed([], rest) == rest
  {
    if rest.Success? {
      assert [] + rest.value == rest.value;
    }
  }

  lemma PrefixedAppend<T>(all: seq<T>, items: seq<T>, rest: Result<seq<T>>)
    ensures Prefixed(all, Prefixed(items, rest)) == Prefixed(all + items, rest)
  {
    if rest.Success? {
      assert all + (items + rest.value) == (all + items) + rest.value;
    }
  }

  /**
   * The DescribeRepositories loop of CollectFindings: each later call carries the previous page's
   * NextToken; the result is every page's repositories in order, or the first error.
   */
  method ListRepositories(pages: seq<Result<TokenPage<Repository>>>)
    returns (r: Result<seq<Repository>>, tokens: seq<Option<string>>)
    ensures r == Listing(pages, 0)
    ensures tokens == TokenWalk(pages, 0, None)
  {
    var token: Option<string> := None;
    var all: seq<Repository> := [];
    var i := 0;
    tokens := [];
    PrefixedEmpty(Listing(pages, 0));
    while true
      invariant i <= |pages|
      invariant tokens + TokenWalk(pages, i, token) == TokenWalk(pages, 0, None)
      invariant Prefixed(all, Listing(pages, i)) == Listing(pages, 0)
      decreases |pages| - i
    {
      var response := At(pages, i);
      if response.Failure? {
        tokens := tokens + [token];
        return Failure(response.error), tokens;
      }
      var page := response.value;
      ghost var rest: Result<seq<Repository>> := if page.nextToken.None? then Success([]) else Listing(pages, i + 1);
      assert Listing(pages, i) == Prefixed(page.items, rest) by {
        if page.nextToken.None? {
          assert page.items + [] == page.items;
        }
      }
      PrefixedAppend(all, page.items, rest);
      all := all + page.items;
      if page.nextToken.None? {
        assert all + [] == all;
        tokens := tokens + [token];
        return Success(all), tokens;
      }
      assert tokens + TokenWalk(pages, i, token) == (tokens + [token]) + TokenWalk(pages, i + 1, page.nextToken);
      tokens := tokens + [token];
      token := page.nextToken;
      i := i + 1;
    }
  }

  /** The fill of processImageScanFindings, on the finding at position `m` of project `p`. */
  method FillScanFinding(p: Project, f: Finding, ghost m: nat, v: ScanFinding)
    requires p.Valid() && m < |p.findings| && f == p.findings[m]
    modifies f
    ensures RecordsOf(p.findings) == old(RecordsOf(p.findings))[m := FillFromScan(old(f.Record()), v)]
  {
    ghost var recs := RecordsOf(p.findings);
    f.description := v.description;
    var packageName := ExtractPackageName(v.attributes);
    if packageName != "" {
      f.packageName := packageName;
    }
    f.severity := Lookup(EcrSeverities, v.severity, ZeroSeverity);
    forall j | 0 <= j < |p.findings| && j != m ensures RecordsOf(p.findings)[j] == recs[j] {
      assert p.findings[j] != f;
    }
  }

  /** One scan finding of type `t`: the finding `{t: t}` selects, filled from it. */
  method ProcessScanFinding(p: Project, t: string, v: ScanFinding)
    requires p.Valid()
    modifies p.Footprint()
    ensures p.Valid()
    ensures p.Record() == ApplyScanFinding(old(p.Record()), t, v)
    ensures fresh(p.Footprint() - old(p.Footprint()))
  {
    ghost var recs := RecordsOf(p.findings);
    var identifiers := ScanIdentifiers(t);
    var f := p.GetFinding(identifiers);
    assert f == p.findings[FindingIndex(recs, identifiers)] && f in p.findings;
    assert f as object in p.Footprint();
    FillScanFinding(p, f, FindingIndex(recs, identifiers), v);
  }

  /** The findings loop of one page, on one project: a finding without a type breaks out of it. */
  method ProcessScanPage(p: Project, vs: seq<ScanFinding>)
    requires p.Valid()
    modifies p.Footprint()
    ensures p.Valid()
    ensures p.Record() == ApplyScanPage(old(p.Record()), vs)
    ensures fresh(p.Footprint() - old(p.Footprint()))
  {
    var i := 0;
    while i < |vs|
      invariant 0 <= i <= |vs|
      invariant p.Valid()
      invariant ApplyScanPage(p.Record(), vs[i..]) == ApplyScanPage(old(p.Record()), vs)
      invariant fresh(p.Footprint() - old(p.Footprint()))
    {
      var findingType := ExtractFindingType(vs[i].name);
      if findingType == "" {
        assert vs[i..][0] == vs[i];
        break;
      }
      ghost var before := p.Record();
      ProcessScanFinding(p, findingType, vs[i]);
      ApplyScanPageUnfold(before, vs, i);
      i := i + 1;
    }
  }

  /** The variables of one DescribeImageScanFindings call. */
  datatype ScanQuery = ScanQuery(repositoryName: string, imageDigest: string, imageTag: string, nextToken: Option<string>)

  /** The scan queries of a token walk: the repository, the image's digest and its last tag stay put. */
  function ScanQueries(name: string, image: ImageDetail, tokens: seq<Option<string>>): (qs: seq<ScanQuery>)
    requires image.tags != []
    ensures |qs| == |tokens|
    ensures forall j | 0 <= j < |qs| ::
      qs[j] == ScanQuery(name, image.digest, image.tags[|image.tags| - 1], tokens[j])
  {
    seq(|tokens|, j requires 0 <= j < |tokens| => ScanQuery(name, image.digest, image.tags[|image.tags| - 1], tokens[j]))
  }

  /**
   * The DescribeImageScanFindings loop of processImageScanFindings, on one project: each later call
   * carries the previous page's NextToken, whose sequence is returned.
   */
  method WalkScanPages(p: Project, pages: seq<Result<TokenPage<ScanFinding>>>)
    returns (err: Option<string>, tokens: seq<Option<string>>)
    requires p.Valid()
    modifies p.Footprint()
    ensures p.Valid()
    ensures ScanPass(p.Record(), err) == ScanWalk(old(p.Record()), pages, 0)
    ensures tokens == TokenWalk(pages, 0, None)
    ensures fresh(p.Footprint() - old(p.Footprint()))
  {
    ghost var goal := ScanWalk(p.Record(), pages, 0);
    ghost var walk := TokenWalk(pages, 0, None);
    ghost var f0 := p.Footprint();
    var nextToken: Option<string> := None;
    var i := 0;
    tokens := [];
    while true
      invariant i <= |pages|
      invariant p.Valid()
      invariant ScanWalk(p.Record(), pages, i) == goal
      invariant tokens + TokenWalk(pages, i, nextToken) == walk
      invariant forall o | o in p.Footprint() && o !in f0 :: fresh(o)
      decreases |pages| - i
    {
      var response := At(pages, i);
      if response.Failure? {
        tokens := tokens + [nextToken];
        return Some(response.error), tokens;
      }
      var page := response.value;
      ScanWalkUnfold(p.Record(), pages, i);
      ghost var f1 := p.Footprint();
      label L:
      ProcessScanPage(p, page.items);
      forall o | o in p.Footprint() && o !in f0 ensures fresh(o) {
        if o !in f1 {
          assert !old@L(allocated(o));
        }
      }
      if page.nextToken.None? {
        tokens := tokens + [nextToken];
        return None, tokens;
      }
      assert tokens + TokenWalk(pages, i, nextToken) == (tokens + [nextToken]) + TokenWalk(pages, i + 1, page.nextToken);
      tokens := tokens + [nextToken];
      nextToken := page.nextToken;
      i := i + 1;
    }
  }

  /** The scan-findings loop on project `k` of the collection. */
  method ScanRepository(c: ProjectCollection, p: Project, ghost k: nat, name: string, image: ImageDetail,
                        pages: seq<Result<TokenPage<ScanFinding>>>)
    returns (err: Option<string>, queries: seq<ScanQuery>)
    requires c.Valid() && k < |c.projects| && c.projects[k] == p
    requires image.tags != []
    modifies p.Footprint()
    ensures c.Valid()
    ensures var s := ScanWalk(old(c.Records()[k]), pages, 0);
      c.Records() == old(c.Records())[k := s.project] && err == s.err
    ensures queries == ScanQueries(name, image, TokenWalk(pages, 0, None))
    ensures fresh(c.Footprint() - old(c.Footprint()))
  {
    var tokens;
    err, tokens := WalkScanPages(p, pages);
    queries := ScanQueries(name, image, tokens);
    ProjectChanged(c, p);
  }

  /** `project.Links["ECR"] = uri` on project `k` of the collection. */
  method LinkEcr(c: ProjectCollection, p: Project, ghost k: nat, uri: string)
    requires c.Valid() && k < |c.projects| && c.projects[k] == p
    modifies p
    ensures c.Valid()
    ensures c.projects == old(c.projects)
    ensures c.Records() == old(c.Records())[k := old(c.Records()[k]).(links := old(c.Records()[k]).links[EcrLinkKey := uri])]
    ensures c.Footprint() == old(c.Footprint())
  {
    ghost var before := p.Record();
    assert old(c.Records())[k] == before;
    p.links := p.links[EcrLinkKey := uri];
    assert p.Record() == before.(links := before.links[EcrLinkKey := uri]);
    ProjectChanged(c, p);
    SameFootprint(c);
  }

  /** The start of processImageScanFindings: GetProject on the repository's name, then its ECR link. */
  method RegisterRepository(c: ProjectCollection, repo: Repository) returns (p: Project, ghost k: nat)
    requires c.Valid()
    modifies c.Footprint()
    ensures c.Valid()
    ensures k == ProjectIndex(old(c.Records()), repo.name) && k < |c.projects| && c.projects[k] == p
    ensures c.Records() == LinkRepository(old(c.Records()), repo)
    ensures fresh(c.Footprint() - old(c.Footprint()))
  {
    ghost var recs := c.Records();
    p := c.GetProject(repo.name);
    k := ProjectIndex(recs, repo.name);
    ProjectFootprintIn(c, p);
    LinkEcr(c, p, k, repo.uri);
  }

  /**
   * processImageScanFindings: register and link the project, find the latest image, then walk the
   * scan findings of its last tag. An image without tags stops the process.
   */
  method ProcessImageScanFindings(c: ProjectCollection, repo: Repository, src: Responses)
    returns (err: Option<string>, panic: Option<string>, queries: seq<ScanQuery>)
    requires c.Valid()
    modifies c.Footprint()
    ensures c.Valid()
    ensures RepoPass(c.Records(), err, panic) == ImageScanFindings(old(c.Records()), repo, src)
    ensures var image := LatestImage(ImagesOf(src, repo.name));
      queries == if image.Success? && image.value.tags != []
        then ScanQueries(repo.name, image.value, TokenWalk(ScanPagesOf(src, repo.name), 0, None))
        else []
    ensures fresh(c.Footprint() - old(c.Footprint()))
  {
    ghost var expected := ImageScanFindings(c.Records(), repo, src);
    ghost var linked := LinkRepository(c.Records(), repo);
    var pages := ScanPagesOf(src, repo.name);
    ghost var f0 := c.Footprint();
    var p, k := RegisterRepository(c, repo);
    var latestImage := LatestImage(ImagesOf(src, repo.name));
    ghost var before := c.Records();
    ghost var f1 := c.Footprint();
    assert before == linked;
    if latestImage.Failure? {
      assert expected == RepoPass(linked, Some(latestImage.error), None);
      return Some(latestImage.error), None, [];
    }
    var image := latestImage.value;
    if |image.tags| == 0 {
      assert expected == RepoPass(linked, None, Some(NoTagPanic));
      return None, Some(NoTagPanic), [];
    }
    ghost var s := ScanWalk(linked[k], pages, 0);
    assert expected == RepoPass(linked[k := s.project], s.err, None);
    ProjectFootprintIn(c, p);
    label W:
    err, queries := ScanRepository(c, p, k, repo.name, image, pages);
    assert c.Records() == before[k := ScanWalk(before[k], pages, 0).project];
    forall o | o in c.Footprint() && o !in f0 ensures fresh(o) {
      if o !in f1 {
        assert !old@W(allocated(o));
      }
    }
    panic := None;
  }

  /** The repository loop of CollectFindings: each repository in order, until one panics. */
  method ProcessRepositoryList(c: ProjectCollection, repos: seq<Repository>, src: Responses) returns (panic: Option<string>)
    requires c.Valid()
    modifies c.Footprint()
    ensures c.Valid()
    ensures ReposPass(c.Records(), panic) == ProcessRepositories(old(c.Records()), repos, src)
    ensures fresh(c.Footprint() - old(c.Footprint()))
  {
    ghost var goal := ProcessRepositories(c.Records(), repos, src);
    ghost var f0 := c.Footprint();
    var i := 0;
    while i < |repos|
      invariant 0 <= i <= |repos|
      invariant c.Valid()
      invariant ProcessRepositories(c.Records(), repos[i..], src) == goal
      invariant forall o | o in c.Footprint() && o !in f0 :: fresh(o)
    {
      ghost var f1 := c.Footprint();
      label L:
      var err, queries;
      err, panic, queries := ProcessImageScanFindings(c, repos[i], src);
      forall o | o in c.Footprint() && o !in f0 ensures fresh(o) {
        if o !in f1 {
          assert !old@L(allocated(o));
        }
      }
      assert repos[i..][1..] == repos[i + 1..];
      if panic.Some? {
        return;
      }
      i := i + 1;
    }
    panic := None;
  }

  /**
   * CollectFindings: the DescribeRepositories loop, whose failure is returned before anything is
   * processed; then every repository in order, its error only logged.
   */
  method CollectFindings(c: ProjectCollection, src: Responses) returns (outcome: Outcome, listTokens: seq<Option<string>>)
    requires c.Valid()
    modifies c.Footprint()
    ensures c.Valid()
    ensures Run(c.Records(), outcome) == Collect(old(c.Records()), src)
    ensures listTokens == TokenWalk(src.repoPages, 0, None)
    ensures fresh(c.Footprint() - old(c.Footprint()))
  {
    ghost var recs, fp := c.Records(), c.Footprint();
    var listing;
    listing, listTokens := ListRepositories(src.repoPages);
    assert c.Records() == recs && c.Footprint() == fp;
    if listing.Failure? {
      return Failed(listing.error), listTokens;
    }
    label P:
    var panic := ProcessRepositoryList(c, listing.value, src);
    forall o | o in c.Footprint() && o !in fp ensures fresh(o) {
      assert !old@P(allocated(o));
    }
    outcome := if panic.Some? then Aborted(panic.value) else Completed;
  }
}
