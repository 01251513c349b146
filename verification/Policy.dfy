/** The admission policy: which violations the scan results of a workload cause. Rego leaves an
    expression undefined where another language would fail, and an undefined result never holds; here
    that is `None`. Patterns are matched by an arbitrary predicate. */
module Policy {
  import opened GoErrors
  import opened Contracts
  import opened Seqs

  type Matches = (string, string) -> bool

  /** The parameters of a constraint. An absent list has the effect of an empty one; an absent limit or
      level is undefined. */
  datatype Parameters = Parameters(
    excludedImages: seq<string>,
    excludeFindingIDs: seq<string>,
    severity: map<string, int>,
    notPatchable: Option<string>)

  datatype Violation =
    | MustBeScanned(image: string, container: string, additionalData: Option<map<string, string>>)
    | HasVulnerabilities(image: string, container: string, digest: string)

  function SeverityToLevel(s: string): Option<int> {
    if s == "None" then Some(0) else if s == "Low" then Some(1)
    else if s == "Medium" then Some(2) else if s == "High" then Some(3) else None
  }

  // Findings.

  predicate NotExcludedFinding(p: Parameters, f: ScanFinding) {
    f.id !in p.excludeFindingIDs
  }

  predicate Above(level: Option<int>, threshold: Option<int>) {
    level.Some? && threshold.Some? && level.value > threshold.value
  }

  function Threshold(p: Parameters): Option<int> {
    if p.notPatchable.None? then None else SeverityToLevel(p.notPatchable.value)
  }

  predicate PatchableOrAbove(p: Parameters, f: ScanFinding) {
    f.patchable || Above(SeverityToLevel(f.severity), Threshold(p))
  }

  function ExcludedFindingsFilter(p: Parameters, fs: seq<ScanFinding>): seq<ScanFinding> {
    Filter((f: ScanFinding) => NotExcludedFinding(p, f), fs)
  }

  function NotPatchableFilter(p: Parameters, fs: seq<ScanFinding>): seq<ScanFinding> {
    Filter((f: ScanFinding) => PatchableOrAbove(p, f), fs)
  }

  function FilterScanFindings(p: Parameters, fs: seq<ScanFinding>): seq<ScanFinding> {
    NotPatchableFilter(p, ExcludedFindingsFilter(p, fs))
  }

  function CountSeverity(fs: seq<ScanFinding>, severity: string): nat {
    |Filter((f: ScanFinding) => f.severity == severity, fs)|
  }

  predicate TypeAbove(p: Parameters, fs: seq<ScanFinding>, severity: string) {
    severity in p.severity && CountSeverity(fs, severity) > p.severity[severity]
  }

  predicate SeverityAboveThreshold(p: Parameters, fs: seq<ScanFinding>) {
    TypeAbove(p, fs, "High") || TypeAbove(p, fs, "Medium") || TypeAbove(p, fs, "Low")
  }

  // Containers.

  predicate Excluded(matches: Matches, p: Parameters, image: string) {
    exists pattern :: pattern in p.excludedImages && matches(pattern, image)
  }

  function WithoutHealthy(cs: seq<ScanInfo>): seq<ScanInfo> {
    Filter((c: ScanInfo) => c.scanStatus != HEALTHY, cs)
  }

  function WithoutExcluded(matches: Matches, p: Parameters, cs: seq<ScanInfo>): seq<ScanInfo> {
    Filter((c: ScanInfo) => !Excluded(matches, p, c.image.name), cs)
  }

  /** `filterContainers` unifies its argument with each filtered list, so it is defined only when
      neither filter drops anything; a null list is never equal to a filtered one. */
  function FilterContainers(matches: Matches, p: Parameters, containers: Slice<ScanInfo>): Option<seq<ScanInfo>> {
    match containers
    case NilSlice => None
    case Slice(cs) =>
      if WithoutHealthy(cs) == cs && WithoutExcluded(matches, p, cs) == cs then Some(cs) else None
  }

  function ContainerViolations(p: Parameters, c: ScanInfo): set<Violation> {
    if c.scanStatus == UNSCANNED then {MustBeScanned(c.image.name, c.name, c.additionalData)}
    else if c.scanStatus == UNHEALTHY && SeverityAboveThreshold(p, FilterScanFindings(p, Elems(c.scanFindings)))
    then {HasVulnerabilities(c.image.name, c.name, c.image.digest)}
    else {}
  }

  function AllViolations(p: Parameters, cs: seq<ScanInfo>): set<Violation> {
    set c, v | c in cs && v in ContainerViolations(p, c) :: v
  }

  function Violations(matches: Matches, p: Parameters, containers: Slice<ScanInfo>): set<Violation> {
    var applicable := FilterContainers(matches, p, containers);
    if applicable.None? then {} else AllViolations(p, applicable.value)
  }

  // Filtering.

  lemma {:induction false} FilterCount<A(!new)>(p: A -> bool, xs: seq<A>, y: A)
    ensures multiset(Filter(p, xs))[y] == if p(y) then multiset(xs)[y] else 0
  {
    if xs != [] {
      assert xs == [xs[0]] + xs[1..];
      FilterCount(p, xs[1..], y);
    }
  }

  lemma {:induction false} FilterKeepsAll<A(!new)>(p: A -> bool, xs: seq<A>)
    ensures Filter(p, xs) == xs <==> forall x :: x in xs ==> p(x)
  {
    if xs != [] {
      FilterKeepsAll(p, xs[1..]);
      assert xs == [xs[0]] + xs[1..];
      if p(xs[0]) {
        assert Filter(p, xs)[1..] == Filter(p, xs[1..]);
      }
    }
  }

  lemma {:induction false} FiltersCommute<A(!new)>(p: A -> bool, q: A -> bool, xs: seq<A>)
    ensures Filter(p, Filter(q, xs)) == Filter(q, Filter(p, xs))
  {
    if xs != [] {
      FiltersCommute(p, q, xs[1..]);
      FilterHead(p, xs[0], Filter(q, xs[1..]));
      FilterHead(q, xs[0], Filter(p, xs[1..]));
    }
  }

  lemma FilterHead<A(!new)>(p: A -> bool, x: A, xs: seq<A>)
    ensures Filter(p, [x] + xs) == if p(x) then [x] + Filter(p, xs) else Filter(p, xs)
  {
  }

  /** A weaker condition keeps at least as much of at least as long a list. */
  lemma FilterGrows<A(!new)>(p: A -> bool, q: A -> bool, xs: seq<A>, ys: seq<A>)
    requires forall x :: p(x) ==> q(x)
    requires multiset(xs) <= multiset(ys)
    ensures multiset(Filter(p, xs)) <= multiset(Filter(q, ys)) && |Filter(p, xs)| <= |Filter(q, ys)|
  {
    forall y: A ensures multiset(Filter(p, xs))[y] <= multiset(Filter(q, ys))[y] {
      FilterCount(p, xs, y);
      FilterCount(q, ys, y);
    }
    SubsetCardinality(multiset(Filter(p, xs)), multiset(Filter(q, ys)));
    assert |multiset(Filter(p, xs))| == |Filter(p, xs)| && |multiset(Filter(q, ys))| == |Filter(q, ys)|;
  }

  lemma SubsetCardinality<A>(a: multiset<A>, b: multiset<A>)
    requires a <= b
    ensures |a| <= |b|
  {
    assert b == a + (b - a);
  }

  // What the policy decides.

  /** The severities that lie above a level, written out; no other level lets a finding without a patch
      through. */
  predicate Worse(severity: string, level: Option<string>) {
    match level
    case Some("None") => severity in {"Low", "Medium", "High"}
    case Some("Low") => severity in {"Medium", "High"}
    case Some("Medium") => severity == "High"
    case _ => false
  }

  /** How many findings of a severity count against its limit. */
  function Counted(p: Parameters, fs: seq<ScanFinding>, severity: string): nat {
    if fs == [] then 0 else (if Counts(p, fs[0], severity) then 1 else 0) + Counted(p, fs[1..], severity)
  }

  predicate Counts(p: Parameters, f: ScanFinding, severity: string) {
    f.severity == severity && f.id !in p.excludeFindingIDs && (f.patchable || Worse(severity, p.notPatchable))
  }

  lemma FindingCounts(p: Parameters, f: ScanFinding, severity: string)
    requires severity in {"High", "Medium", "Low"}
    ensures Counts(p, f, severity) <==> f.severity == severity && NotExcludedFinding(p, f) && PatchableOrAbove(p, f)
  {
  }

  lemma {:induction false} FilterTwice<A(!new)>(p: A -> bool, q: A -> bool, r: A -> bool, xs: seq<A>)
    requires forall x :: r(x) <==> p(x) && q(x)
    ensures Filter(p, Filter(q, xs)) == Filter(r, xs)
  {
    if xs != [] {
      FilterTwice(p, q, r, xs[1..]);
      FilterHead(p, xs[0], Filter(q, xs[1..]));
    }
  }

  lemma {:induction false} FilterIsCounted(p: Parameters, q: ScanFinding -> bool, fs: seq<ScanFinding>, severity: string)
    requires forall f :: q(f) <==> Counts(p, f, severity)
    ensures |Filter(q, fs)| == Counted(p, fs, severity)
  {
    if fs != [] {
      FilterIsCounted(p, q, fs[1..], severity);
    }
  }

  lemma CountedIsCounted(p: Parameters, fs: seq<ScanFinding>, severity: string)
    requires severity in {"High", "Medium", "Low"}
    ensures CountSeverity(FilterScanFindings(p, fs), severity) == Counted(p, fs, severity)
  {
    var notExcluded, above := (f: ScanFinding) => NotExcludedFinding(p, f), (f: ScanFinding) => PatchableOrAbove(p, f);
    var same, both := (f: ScanFinding) => f.severity == severity, (f: ScanFinding) => NotExcludedFinding(p, f) && PatchableOrAbove(p, f);
    var all := (f: ScanFinding) => f.severity == severity && NotExcludedFinding(p, f) && PatchableOrAbove(p, f);
    FilterTwice(above, notExcluded, both, fs);
    FilterTwice(same, both, all, fs);
    forall f ensures all(f) <==> Counts(p, f, severity) {
      FindingCounts(p, f, severity);
    }
    FilterIsCounted(p, all, fs, severity);
  }

  /** An unhealthy container violates the policy exactly when for one of the three severities more
      findings count than its limit allows: those not excluded that have a patch or are worse than the
      level for findings without one. */
  lemma VulnerableIff(p: Parameters, c: ScanInfo)
    requires c.scanStatus == UNHEALTHY
    ensures ContainerViolations(p, c) ==
            if exists s :: s in {"High", "Medium", "Low"} && s in p.severity && Counted(p, Elems(c.scanFindings), s) > p.severity[s]
            then {HasVulnerabilities(c.image.name, c.name, c.image.digest)} else {}
  {
    CountedIsCounted(p, Elems(c.scanFindings), "High");
    CountedIsCounted(p, Elems(c.scanFindings), "Medium");
    CountedIsCounted(p, Elems(c.scanFindings), "Low");
    assert UNHEALTHY[2] == 'h' && UNSCANNED[2] == 's';
  }

  /** The containers the filters are meant to leave. */
  function Applicable(matches: Matches, p: Parameters, cs: seq<ScanInfo>): seq<ScanInfo> {
    WithoutExcluded(matches, p, WithoutHealthy(cs))
  }

  predicate IsApplicable(matches: Matches, p: Parameters, c: ScanInfo) {
    c.scanStatus != HEALTHY && !Excluded(matches, p, c.image.name)
  }

  lemma FilterContainersMeans(matches: Matches, p: Parameters, cs: seq<ScanInfo>)
    ensures FilterContainers(matches, p, Slice(cs)) ==
            if forall c :: c in cs ==> IsApplicable(matches, p, c) then Some(cs) else None
    ensures forall c :: c in Applicable(matches, p, cs) <==> c in cs && IsApplicable(matches, p, c)
  {
    FilterKeepsAll((c: ScanInfo) => c.scanStatus != HEALTHY, cs);
    FilterKeepsAll((c: ScanInfo) => !Excluded(matches, p, c.image.name), cs);
  }

  /** A null list causes no violation. For a list, the policy reports what its filters are meant to
      leave exactly when no container is healthy or excluded, or when none of the others violates
      anything; otherwise one healthy or excluded container silences every violation of the pod. */
  lemma OneHealthyContainerSilencesAll(matches: Matches, p: Parameters, cs: seq<ScanInfo>)
    ensures Violations(matches, p, NilSlice) == {}
    ensures (exists c :: c in cs && !IsApplicable(matches, p, c)) ==> Violations(matches, p, Slice(cs)) == {}
    ensures Violations(matches, p, Slice(cs)) == AllViolations(p, Applicable(matches, p, cs))
            <==> (forall c :: c in cs ==> IsApplicable(matches, p, c))
                 || forall c :: c in cs && IsApplicable(matches, p, c) ==> ContainerViolations(p, c) == {}
  {
    FilterContainersMeans(matches, p, cs);
    if forall c :: c in cs ==> IsApplicable(matches, p, c) {
      assert forall c :: c in Applicable(matches, p, cs) <==> c in cs;
    } else if c :| c in cs && IsApplicable(matches, p, c) && ContainerViolations(p, c) != {} {
      var v :| v in ContainerViolations(p, c);
      assert c in Applicable(matches, p, cs);
      assert v in AllViolations(p, Applicable(matches, p, cs));
    }
  }

  /** Every violation, written out: there is none unless all containers are neither healthy nor match an
      excluded pattern; then there is one for every unscanned container, and one for every unhealthy
      container with more counted findings of a severity than its limit. */
  lemma ViolationsMean(matches: Matches, p: Parameters, cs: seq<ScanInfo>, v: Violation)
    ensures v in Violations(matches, p, Slice(cs)) <==>
      && (forall c :: c in cs ==>
            c.scanStatus != HEALTHY && forall pattern :: pattern in p.excludedImages ==> !matches(pattern, c.image.name))
      && exists c :: c in cs && Causes(p, c, v)
  {
    FilterContainersMeans(matches, p, cs);
    assert UNSCANNED[0] == 'u' && HEALTHY[0] == 'h' && UNHEALTHY[2] == 'h' && UNSCANNED[2] == 's';
    forall c | c in cs ensures v in ContainerViolations(p, c) <==> Causes(p, c, v) {
      if c.scanStatus == UNHEALTHY {
        VulnerableIff(p, c);
      }
    }
    hide ContainerViolations, FilterContainers, Causes;
  }

  predicate Causes(p: Parameters, c: ScanInfo, v: Violation) {
    || (c.scanStatus == UNSCANNED && v == MustBeScanned(c.image.name, c.name, c.additionalData))
    || (c.scanStatus == UNHEALTHY && v == HasVulnerabilities(c.image.name, c.name, c.image.digest)
        && exists s :: s in {"High", "Medium", "Low"} && s in p.severity && Counted(p, Elems(c.scanFindings), s) > p.severity[s])
  }

  /** The smallest such pod: an unscanned container alone is reported, beside a healthy one it is not. */
  lemma HealthyBesideUnscanned(matches: Matches, p: Parameters)
    requires p.excludedImages == []
    ensures var unscanned := ScanInfo("a", Image("x", ""), UNSCANNED, NilSlice, None);
            var healthy := ScanInfo("b", Image("y", "d"), HEALTHY, Slice([]), None);
      && Violations(matches, p, Slice([unscanned])) == {MustBeScanned("x", "a", None)}
      && Violations(matches, p, Slice([unscanned, healthy])) == {}
  {
    var unscanned := ScanInfo("a", Image("x", ""), UNSCANNED, NilSlice, None);
    var healthy := ScanInfo("b", Image("y", "d"), HEALTHY, Slice([]), None);
    assert UNSCANNED[0] == 'u' && HEALTHY[0] == 'h';
    FilterContainersMeans(matches, p, [unscanned]);
    FilterContainersMeans(matches, p, [unscanned, healthy]);
    assert !IsApplicable(matches, p, [unscanned, healthy][1]);
    assert ContainerViolations(p, unscanned) == {MustBeScanned("x", "a", None)};
    assert forall v :: v in AllViolations(p, [unscanned]) <==> v in ContainerViolations(p, unscanned);
  }

  /** `q` is at least as lenient as `p`: more exclusions, no lower limit (or none at all), and no lower
      level below which findings without a patch are ignored (an undefined level ignores them all). */
  predicate MoreLenient(p: Parameters, q: Parameters) {
    && (forall i :: i in p.excludedImages ==> i in q.excludedImages)
    && (forall i :: i in p.excludeFindingIDs ==> i in q.excludeFindingIDs)
    && (forall s :: s in q.severity ==> s in p.severity && p.severity[s] <= q.severity[s])
    && (Threshold(q).None? || (Threshold(p).Some? && Threshold(p).value <= Threshold(q).value))
  }

  lemma LenientFindings(p: Parameters, q: Parameters, fs: seq<ScanFinding>)
    requires MoreLenient(p, q)
    ensures SeverityAboveThreshold(q, FilterScanFindings(q, fs)) ==> SeverityAboveThreshold(p, FilterScanFindings(p, fs))
  {
    FilterGrows((f: ScanFinding) => NotExcludedFinding(q, f), (f: ScanFinding) => NotExcludedFinding(p, f), fs, fs);
    FilterGrows((f: ScanFinding) => PatchableOrAbove(q, f), (f: ScanFinding) => PatchableOrAbove(p, f),
                ExcludedFindingsFilter(q, fs), ExcludedFindingsFilter(p, fs));
    CountGrows(FilterScanFindings(q, fs), FilterScanFindings(p, fs), "High");
    CountGrows(FilterScanFindings(q, fs), FilterScanFindings(p, fs), "Medium");
    CountGrows(FilterScanFindings(q, fs), FilterScanFindings(p, fs), "Low");
  }

  lemma CountGrows(fs: seq<ScanFinding>, gs: seq<ScanFinding>, severity: string)
    requires multiset(fs) <= multiset(gs)
    ensures CountSeverity(fs, severity) <= CountSeverity(gs, severity)
  {
    FilterGrows((f: ScanFinding) => f.severity == severity, (f: ScanFinding) => f.severity == severity, fs, gs);
  }

  /** A more lenient constraint never reports a violation that a stricter one does not. */
  lemma LenienceIsMonotone(matches: Matches, p: Parameters, q: Parameters, containers: Slice<ScanInfo>)
    requires MoreLenient(p, q)
    ensures Violations(matches, q, containers) <= Violations(matches, p, containers)
  {
    if containers.Slice? {
      var cs := containers.elems;
      FilterContainersMeans(matches, p, cs);
      FilterContainersMeans(matches, q, cs);
      forall c | c in cs ensures IsApplicable(matches, q, c) ==> IsApplicable(matches, p, c) {
        if Excluded(matches, p, c.image.name) {
          var pattern :| pattern in p.excludedImages && matches(pattern, c.image.name);
          assert pattern in q.excludedImages;
        }
      }
      forall c | c in cs ensures ContainerViolations(q, c) <= ContainerViolations(p, c) {
        LenientFindings(p, q, Elems(c.scanFindings));
      }
    }
  }

  /** The two finding filters can be applied in either order. */
  lemma FindingFiltersCommute(p: Parameters, fs: seq<ScanFinding>)
    ensures FilterScanFindings(p, fs) == ExcludedFindingsFilter(p, NotPatchableFilter(p, fs))
  {
    FiltersCommute((f: ScanFinding) => PatchableOrAbove(p, f), (f: ScanFinding) => NotExcludedFinding(p, f), fs);
  }

  /** More findings never make a verdict milder, so their order does not matter at all. */
  lemma MoreFindingsNeverHelp(p: Parameters, fs: seq<ScanFinding>, gs: seq<ScanFinding>)
    requires multiset(fs) <= multiset(gs)
    ensures SeverityAboveThreshold(p, FilterScanFindings(p, fs)) ==> SeverityAboveThreshold(p, FilterScanFindings(p, gs))
  {
    var notExcluded, above := (f: ScanFinding) => NotExcludedFinding(p, f), (f: ScanFinding) => PatchableOrAbove(p, f);
    FilterGrows(notExcluded, notExcluded, fs, gs);
    FilterGrows(above, above, ExcludedFindingsFilter(p, fs), ExcludedFindingsFilter(p, gs));
    CountGrows(FilterScanFindings(p, fs), FilterScanFindings(p, gs), "High");
    CountGrows(FilterScanFindings(p, fs), FilterScanFindings(p, gs), "Medium");
    CountGrows(FilterScanFindings(p, fs), FilterScanFindings(p, gs), "Low");
  }

  /** The same container with its findings rearranged. */
  predicate SameUpToOrder(c: ScanInfo, d: ScanInfo) {
    && d == c.(scanFindings := d.scanFindings)
    && multiset(Elems(c.scanFindings)) == multiset(Elems(d.scanFindings))
  }

  /** What the policy looks at is the same for both. */
  predicate SameVerdict(matches: Matches, p: Parameters, c: ScanInfo, d: ScanInfo) {
    ContainerViolations(p, c) == ContainerViolations(p, d) && (IsApplicable(matches, p, c) <==> IsApplicable(matches, p, d))
  }

  lemma FindingOrder(matches: Matches, p: Parameters, c: ScanInfo, d: ScanInfo)
    requires SameUpToOrder(c, d)
    ensures SameVerdict(matches, p, c, d)
  {
    MoreFindingsNeverHelp(p, Elems(c.scanFindings), Elems(d.scanFindings));
    MoreFindingsNeverHelp(p, Elems(d.scanFindings), Elems(c.scanFindings));
  }

  ghost predicate Covered(matches: Matches, p: Parameters, cs: seq<ScanInfo>, ds: seq<ScanInfo>) {
    forall c :: c in cs ==> exists d :: d in ds && SameVerdict(matches, p, c, d)
  }

  lemma CoveredViolations(matches: Matches, p: Parameters, cs: seq<ScanInfo>, ds: seq<ScanInfo>)
    requires Covered(matches, p, cs, ds)
    ensures AllViolations(p, cs) <= AllViolations(p, ds)
  {
  }

  lemma CoveredBothWays(matches: Matches, p: Parameters, cs: seq<ScanInfo>, ds: seq<ScanInfo>)
    requires Covered(matches, p, cs, ds) && Covered(matches, p, ds, cs)
    ensures Violations(matches, p, Slice(cs)) == Violations(matches, p, Slice(ds))
  {
    FilterContainersMeans(matches, p, cs);
    FilterContainersMeans(matches, p, ds);
    CoveredViolations(matches, p, cs, ds);
    CoveredViolations(matches, p, ds, cs);
    hide IsApplicable, ContainerViolations, FilterContainers, AllViolations;
  }

  lemma CoveredPairwise(matches: Matches, p: Parameters, cs: seq<ScanInfo>, ds: seq<ScanInfo>)
    requires |cs| == |ds| && forall i :: 0 <= i < |cs| ==> SameVerdict(matches, p, cs[i], ds[i])
    ensures Covered(matches, p, cs, ds)
  {
  }

  lemma CoveredMembers(matches: Matches, p: Parameters, cs: seq<ScanInfo>, ds: seq<ScanInfo>)
    requires multiset(cs) == multiset(ds)
    ensures Covered(matches, p, cs, ds)
  {
    forall c | c in cs ensures exists d :: d in ds && SameVerdict(matches, p, c, d) {
      assert c in multiset(ds);
      assert SameVerdict(matches, p, c, c);
    }
  }

  /** Rearranging the containers, and the findings inside each of them, changes no verdict. */
  lemma OrderDoesNotMatter(matches: Matches, p: Parameters, cs: seq<ScanInfo>, ds: seq<ScanInfo>, es: seq<ScanInfo>)
    requires |cs| == |ds| && forall i :: 0 <= i < |cs| ==> SameUpToOrder(cs[i], ds[i])
    requires multiset(ds) == multiset(es)
    ensures Violations(matches, p, Slice(cs)) == Violations(matches, p, Slice(es))
  {
    forall i | 0 <= i < |cs| ensures SameVerdict(matches, p, cs[i], ds[i]) && SameVerdict(matches, p, ds[i], cs[i]) {
      FindingOrder(matches, p, cs[i], ds[i]);
    }
    hide SameVerdict, SameUpToOrder, Covered, Violations;
    CoveredPairwise(matches, p, cs, ds);
    CoveredPairwise(matches, p, ds, cs);
    CoveredBothWays(matches, p, cs, ds);
    CoveredMembers(matches, p, ds, es);
    CoveredMembers(matches, p, es, ds);
    CoveredBothWays(matches, p, ds, es);
  }
}
