/** The dependency audit gate: a validated report passes when every high or critical vulnerability
    has a well-formed, unexpired exception. */
module AuditGate {
  import opened StreamEvents
  import opened Strings

  // ---- reports -------------------------------------------------------------------------------------

  /** Text fields are empty when missing; `ids` holds the possible identifiers in order of preference. */
  datatype Advisory = BadAdvisory | Advisory(moduleName: string, name: string, severity: string, ids: seq<string>)

  /** A package with the identifiers of each cause. */
  datatype Vulnerability = BadVulnerability | Vulnerability(package: string, severity: string, via: seq<seq<string>>)

  datatype Collection<+T> = Absent | NotADict(truthy: bool) | Dict(entries: seq<T>)

  datatype Totals = Totals(info: int, low: int, moderate: int, high: int, critical: int)

  datatype Report =
    | ErrorReport
    | Report(advisories: Collection<Advisory>, vulnerabilities: Collection<Vulnerability>, totals: Option<Totals>)

  /** One reported vulnerability, as the coverage check sees it. */
  datatype Finding = Finding(name: string, severity: string, advisory: string)

  function Pick(ids: seq<string>): string {
    if ids == [] then "" else if ids[0] != "" then ids[0] else Pick(ids[1..])
  }

  function OfAdvisories(l: seq<Advisory>): seq<Finding> {
    if l == [] then []
    else
      (match l[0]
       case BadAdvisory => []
       case Advisory(moduleName, name, severity, ids) =>
         [Finding(if moduleName != "" then moduleName else name, severity, Pick(ids))])
      + OfAdvisories(l[1..])
  }

  function Causes(name: string, severity: string, via: seq<seq<string>>): seq<Finding> {
    if via == [] then []
    else (if Pick(via[0]) != "" then [Finding(name, severity, Pick(via[0]))] else []) + Causes(name, severity, via[1..])
  }

  /** A package without a usable cause is still reported, without an identifier. */
  function OfVulnerability(v: Vulnerability): seq<Finding> {
    match v
    case BadVulnerability => []
    case Vulnerability(name, severity, via) =>
      var causes := Causes(name, severity, via);
      if causes == [] then [Finding(name, severity, "")] else causes
  }

  function OfVulnerabilities(l: seq<Vulnerability>): seq<Finding> {
    if l == [] then [] else OfVulnerability(l[0]) + OfVulnerabilities(l[1..])
  }

  function Findings(r: Report): seq<Finding>
    requires r.Report?
  {
    (if r.advisories.Dict? then OfAdvisories(r.advisories.entries) else [])
    + (if r.vulnerabilities.Dict? then OfVulnerabilities(r.vulnerabilities.entries) else [])
  }

  // ---- every report is heard ---------------------------------------------------------------------------

  /** i is the first identifier that is not empty. */
  predicate Preferred(ids: seq<string>, i: int) {
    0 <= i < |ids| && ids[i] != "" && forall j | 0 <= j < i :: ids[j] == ""
  }

  lemma {:induction false} PickExactly(ids: seq<string>)
    ensures Pick(ids) == "" <==> forall i | 0 <= i < |ids| :: ids[i] == ""
    ensures forall i | Preferred(ids, i) :: Pick(ids) == ids[i]
  {
    if ids != [] {
      var rest := ids[1..];
      PickExactly(rest);
      assert forall i | 0 <= i < |rest| :: rest[i] == ids[i + 1];
      forall i | Preferred(ids, i) && i > 0 ensures Preferred(rest, i - 1) {
      }
    }
  }

  /** A usable cause of a package. */
  predicate IsCause(via: seq<seq<string>>, k: int, advisory: string) {
    0 <= k < |via| && Pick(via[k]) == advisory != ""
  }

  lemma {:induction false} CausesExactly(name: string, severity: string, via: seq<seq<string>>, f: Finding)
    ensures f in Causes(name, severity, via)
            <==> f.name == name && f.severity == severity && exists k :: IsCause(via, k, f.advisory)
  {
    hide Pick;
    if via != [] {
      var rest := via[1..];
      CausesExactly(name, severity, rest, f);
      assert forall k | 0 <= k < |rest| :: rest[k] == via[k + 1];
      if k :| IsCause(rest, k, f.advisory) {
        assert IsCause(via, k + 1, f.advisory);
      }
      if k :| IsCause(via, k, f.advisory) && k > 0 {
        assert IsCause(rest, k - 1, f.advisory);
      }
      assert IsCause(via, 0, f.advisory) <==> Pick(via[0]) == f.advisory != "";
    }
  }

  /** What one advisory reports. */
  predicate Reports(a: Advisory, f: Finding) {
    && a.Advisory? && f.severity == a.severity && f.advisory == Pick(a.ids)
    && f.name == if a.moduleName != "" then a.moduleName else a.name
  }

  /** What one vulnerable package reports: each usable cause, or itself without an identifier. */
  ghost predicate Affects(v: Vulnerability, f: Finding) {
    && v.Vulnerability? && f.name == v.package && f.severity == v.severity
    && (if f.advisory != "" then exists k :: IsCause(v.via, k, f.advisory)
        else forall k | 0 <= k < |v.via| :: Pick(v.via[k]) == "")
  }

  lemma {:induction false} NoCauses(name: string, severity: string, via: seq<seq<string>>)
    ensures Causes(name, severity, via) == [] <==> forall k | 0 <= k < |via| :: Pick(via[k]) == ""
  {
    hide Pick;
    if via != [] {
      NoCauses(name, severity, via[1..]);
      assert forall k | 0 <= k < |via[1..]| :: via[1..][k] == via[k + 1];
    }
  }

  lemma AffectsExactly(v: Vulnerability, f: Finding)
    ensures f in OfVulnerability(v) <==> Affects(v, f)
  {
    hide Pick, Causes;
    if v.Vulnerability? {
      CausesExactly(v.package, v.severity, v.via, f);
      NoCauses(v.package, v.severity, v.via);
      if f.advisory != "" && exists k :: IsCause(v.via, k, f.advisory) {
        var k :| IsCause(v.via, k, f.advisory);
        assert Pick(v.via[k]) != "";
      }
    }
  }

  lemma {:induction false} AdvisoriesExactly(l: seq<Advisory>, f: Finding)
    ensures f in OfAdvisories(l) <==> exists i :: 0 <= i < |l| && Reports(l[i], f)
  {
    hide Pick;
    if l != [] {
      var rest := l[1..];
      AdvisoriesExactly(rest, f);
      assert forall i | 0 <= i < |rest| :: rest[i] == l[i + 1];
      if i :| 0 < i < |l| && Reports(l[i], f) {
        assert Reports(rest[i - 1], f);
      }
      if i :| 0 <= i < |rest| && Reports(rest[i], f) {
        assert Reports(l[i + 1], f);
      }
    }
  }

  lemma {:induction false} VulnerabilitiesExactly(l: seq<Vulnerability>, f: Finding)
    ensures f in OfVulnerabilities(l) <==> exists i :: 0 <= i < |l| && Affects(l[i], f)
  {
    hide OfVulnerability, Affects;
    if l != [] {
      var rest := l[1..];
      VulnerabilitiesExactly(rest, f);
      AffectsExactly(l[0], f);
      assert forall i | 0 <= i < |rest| :: rest[i] == l[i + 1];
      if i :| 0 < i < |l| && Affects(l[i], f) {
        assert Affects(rest[i - 1], f);
      }
      if i :| 0 <= i < |rest| && Affects(rest[i], f) {
        assert Affects(l[i + 1], f);
      }
    }
  }

  /** The findings of a report are exactly what its advisories and its vulnerable packages report. */
  lemma FindingsExactly(r: Report, f: Finding)
    requires r.Report?
    ensures f in Findings(r)
            <==> || (r.advisories.Dict?
                     && exists i :: 0 <= i < |r.advisories.entries| && Reports(r.advisories.entries[i], f))
                 || (r.vulnerabilities.Dict?
                     && exists i :: 0 <= i < |r.vulnerabilities.entries| && Affects(r.vulnerabilities.entries[i], f))
  {
    hide OfAdvisories, OfVulnerabilities, Reports, Affects;
    if r.advisories.Dict? {
      AdvisoriesExactly(r.advisories.entries, f);
    }
    if r.vulnerabilities.Dict? {
      VulnerabilitiesExactly(r.vulnerabilities.entries, f);
    }
  }

  // ---- keys ----------------------------------------------------------------------------------------

  /** Python's white space. */
  predicate IsPySpace(c: char) {
    IsSpace(c) || '\U{001C}' <= c <= '\U{001F}'
  }

  function Strip(s: string): string {
    Trim(s, IsPySpace)
  }

  function Normal(s: string): string {
    Lower(Strip(s))
  }

  datatype Key = Key(package: string, advisory: string)

  function KeyOf(f: Finding): Key {
    Key(Strip(f.name), Normal(f.advisory))
  }

  predicate Severe(severity: string) {
    severity == "high" || severity == "critical"
  }

  predicate Known(severity: string) {
    severity == "info" || severity == "low" || severity == "moderate" || Severe(severity)
  }

  // ---- validation ------------------------------------------------------------------------------------

  predicate Truthy<T>(c: Collection<T>) {
    (c.NotADict? && c.truthy) || (c.Dict? && c.entries != [])
  }

  predicate SoundTotals(t: Totals) {
    t.info >= 0 && t.low >= 0 && t.moderate >= 0 && t.high >= 0 && t.critical >= 0
  }

  predicate KnownAdvisories(l: seq<Advisory>) {
    forall i | 0 <= i < |l| :: l[i].Advisory? && Known(l[i].severity)
  }

  predicate KnownVulnerabilities(l: seq<Vulnerability>) {
    forall i | 0 <= i < |l| :: l[i].Vulnerability? && Known(l[i].severity)
  }

  function CountAdvisories(l: seq<Advisory>, severity: string): nat {
    if l == [] then 0
    else (if l[0].Advisory? && l[0].severity == severity then 1 else 0) + CountAdvisories(l[1..], severity)
  }

  function CountVulnerabilities(l: seq<Vulnerability>, severity: string): nat {
    if l == [] then 0
    else (if l[0].Vulnerability? && l[0].severity == severity then 1 else 0) + CountVulnerabilities(l[1..], severity)
  }

  /** How many entries of a severity the populated collection holds, None when it is not a dictionary. */
  function Detailed(r: Report, severity: string): Option<nat>
    requires r.Report?
  {
    if Truthy(r.advisories) then
      if r.advisories.Dict? then Some(CountAdvisories(r.advisories.entries, severity)) else None
    else if Truthy(r.vulnerabilities) then
      if r.vulnerabilities.Dict? then Some(CountVulnerabilities(r.vulnerabilities.entries, severity)) else None
    else Some(0)
  }

  function TotalOf(t: Totals, severity: string): int {
    if severity == "high" then t.high else t.critical
  }

  predicate Identified(f: Finding) {
    f.name != "" && f.advisory != ""
  }

  /** No two findings with the same key differ in severity. */
  predicate Consistent(fs: seq<Finding>) {
    forall i, j | 0 <= i < |fs| && 0 <= j < |fs| && Identified(fs[i]) && Identified(fs[j])
        && KeyOf(fs[i]) == KeyOf(fs[j]) ::
      fs[i].severity == fs[j].severity
  }

  predicate Mentions(fs: seq<Finding>, severity: string) {
    exists i :: 0 <= i < |fs| && fs[i].severity == severity
  }

  predicate Shaped(r: Report) {
    && r.Report?
    && (r.advisories.Dict? || r.vulnerabilities.Dict?)
    && !(Truthy(r.advisories) && Truthy(r.vulnerabilities))
    && r.totals.Some? && SoundTotals(r.totals.value)
    && (r.advisories.Dict? ==> KnownAdvisories(r.advisories.entries))
    && (r.vulnerabilities.Dict? ==> KnownVulnerabilities(r.vulnerabilities.entries))
  }

  predicate TotalsAgree(r: Report)
    requires Shaped(r)
  {
    && Detailed(r, "high") == Some(r.totals.value.high)
    && Detailed(r, "critical") == Some(r.totals.value.critical)
  }

  predicate Complete(r: Report)
    requires Shaped(r)
  {
    && (r.totals.value.high > 0 ==> Mentions(Findings(r), "high"))
    && (r.totals.value.critical > 0 ==> Mentions(Findings(r), "critical"))
  }

  predicate EmptyMeansNone(r: Report)
    requires Shaped(r)
  {
    !Truthy(r.advisories) && !Truthy(r.vulnerabilities) ==> r.totals.value == Totals(0, 0, 0, 0, 0)
  }

  predicate Validated(r: Report) {
    Shaped(r) && TotalsAgree(r) && Consistent(Findings(r)) && Complete(r) && EmptyMeansNone(r)
  }

  /** The conflict check with its dictionary of first severities. */
  method CheckConsistent(fs: seq<Finding>) returns (ok: bool)
    ensures ok == Consistent(fs)
  {
    hide KeyOf;
    var severities: map<Key, string> := map[];
    for i := 0 to |fs|
      invariant forall j | 0 <= j < i && Identified(fs[j]) ::
                KeyOf(fs[j]) in severities && severities[KeyOf(fs[j])] == fs[j].severity
      invariant forall k :: k in severities ==> exists j :: 0 <= j < i && Identified(fs[j]) && KeyOf(fs[j]) == k
    {
      var f := fs[i];
      if f.name == "" || f.advisory == "" {
        continue;
      }
      var key := KeyOf(f);
      if key !in severities {
        severities := severities[key := f.severity];
      }
      if severities[key] != f.severity {
        assert exists j :: 0 <= j < i && Identified(fs[j]) && KeyOf(fs[j]) == key;
        return false;
      }
    }
    return true;
  }

  /** The check for omitted details can never fail once the totals agree with the collections. */
  lemma OmissionCheckIsRedundant(r: Report)
    requires Shaped(r) && TotalsAgree(r)
    ensures Complete(r)
  {
    forall severity | severity == "high" || severity == "critical"
      ensures TotalOf(r.totals.value, severity) > 0 ==> Mentions(Findings(r), severity)
    {
      if TotalOf(r.totals.value, severity) > 0 {
        if Truthy(r.advisories) {
          CountedIsFound(r.advisories.entries, severity);
          var i :| 0 <= i < |OfAdvisories(r.advisories.entries)|
              && OfAdvisories(r.advisories.entries)[i].severity == severity;
          assert Findings(r)[i].severity == severity;
        } else if Truthy(r.vulnerabilities) {
          CountedIsReported(r.vulnerabilities.entries, severity);
          var fs := OfVulnerabilities(r.vulnerabilities.entries);
          var i :| 0 <= i < |fs| && fs[i].severity == severity;
          var before := |Findings(r)| - |fs|;
          assert Findings(r)[before + i].severity == severity;
        }
      }
    }
  }

  lemma {:induction false} CountedIsFound(l: seq<Advisory>, severity: string)
    requires CountAdvisories(l, severity) > 0
    ensures Mentions(OfAdvisories(l), severity)
  {
    if l[0].Advisory? && l[0].severity == severity {
      assert OfAdvisories(l)[0].severity == severity;
    } else {
      CountedIsFound(l[1..], severity);
      var i :| 0 <= i < |OfAdvisories(l[1..])| && OfAdvisories(l[1..])[i].severity == severity;
      var before := |OfAdvisories(l)| - |OfAdvisories(l[1..])|;
      assert OfAdvisories(l)[before + i].severity == severity;
    }
  }

  lemma {:induction false} CausesShareSeverity(name: string, severity: string, via: seq<seq<string>>)
    ensures forall i | 0 <= i < |Causes(name, severity, via)| :: Causes(name, severity, via)[i].severity == severity
  {
    if via != [] {
      CausesShareSeverity(name, severity, via[1..]);
    }
  }

  lemma {:induction false} CountedIsReported(l: seq<Vulnerability>, severity: string)
    requires CountVulnerabilities(l, severity) > 0
    ensures Mentions(OfVulnerabilities(l), severity)
  {
    var head := OfVulnerability(l[0]);
    if l[0].Vulnerability? && l[0].severity == severity {
      CausesShareSeverity(l[0].package, severity, l[0].via);
      assert head[0].severity == severity;
      assert OfVulnerabilities(l)[0] == head[0];
    } else {
      CountedIsReported(l[1..], severity);
      var rest := OfVulnerabilities(l[1..]);
      var i :| 0 <= i < |rest| && rest[i].severity == severity;
      assert OfVulnerabilities(l)[|head| + i] == rest[i];
    }
  }

  // ---- what a valid report is ----------------------------------------------------------------------------

  function Entries<T>(c: Collection<T>): seq<T> {
    if c.Dict? then c.entries else []
  }

  /** Anything but a value that is there and is no dictionary. */
  predicate Readable<T>(c: Collection<T>) {
    c.NotADict? ==> !c.truthy
  }

  /** Both findings are identified, as the same vulnerability of the same package. */
  predicate Alike(f: Finding, g: Finding) {
    Identified(f) && Identified(g) && KeyOf(f) == KeyOf(g)
  }

  /** The entries of a severity, by position. */
  ghost function AdvisoriesOf(l: seq<Advisory>, severity: string): set<int> {
    set i | 0 <= i < |l| && l[i].Advisory? && l[i].severity == severity
  }

  ghost function VulnerabilitiesOf(l: seq<Vulnerability>, severity: string): set<int> {
    set i | 0 <= i < |l| && l[i].Vulnerability? && l[i].severity == severity
  }

  const SEVERITIES := {"info", "low", "moderate", "high", "critical"}

  /** How many entries of a severity a report holds. */
  ghost function Number(r: Report, severity: string): nat
    requires r.Report?
  {
    |AdvisoriesOf(Entries(r.advisories), severity)| + |VulnerabilitiesOf(Entries(r.vulnerabilities), severity)|
  }

  /** A report to rely on: one kind of collection, readable entries of known severity that agree with each
      other, and totals that are the numbers of entries. */
  ghost predicate Reliable(r: Report) {
    && r.Report? && r.totals.Some?
    && var t := r.totals.value;
       && t.info >= 0 && t.low >= 0 && t.moderate >= 0
       && t.high == Number(r, "high") && t.critical == Number(r, "critical")
       && (r.advisories.Dict? || r.vulnerabilities.Dict?)
       && Readable(r.advisories) && Readable(r.vulnerabilities)
       && (Entries(r.advisories) == [] || Entries(r.vulnerabilities) == [])
       && (Entries(r.advisories) == [] && Entries(r.vulnerabilities) == [] ==>
             t.info == 0 && t.low == 0 && t.moderate == 0)
       && (forall i | 0 <= i < |Entries(r.advisories)| ::
             Entries(r.advisories)[i].Advisory? && Entries(r.advisories)[i].severity in SEVERITIES)
       && (forall i | 0 <= i < |Entries(r.vulnerabilities)| ::
             Entries(r.vulnerabilities)[i].Vulnerability? && Entries(r.vulnerabilities)[i].severity in SEVERITIES)
       && (forall f, g | f in Findings(r) && g in Findings(r) && Alike(f, g) :: f.severity == g.severity)
  }

  lemma {:induction false} AdvisoriesCounted(l: seq<Advisory>, severity: string)
    ensures CountAdvisories(l, severity) == |AdvisoriesOf(l, severity)|
  {
    if l != [] {
      var rest := l[1..];
      AdvisoriesCounted(rest, severity);
      var moved := set i | i in AdvisoriesOf(rest, severity) :: i + 1;
      Shifted(AdvisoriesOf(rest, severity), moved);
      var first := if l[0].Advisory? && l[0].severity == severity then {0} else {};
      assert AdvisoriesOf(l, severity) == first + moved by {
        assert forall i | 0 < i < |l| :: l[i] == rest[i - 1];
        forall i | i in AdvisoriesOf(l, severity) && i > 0 ensures i in moved {
          assert i - 1 in AdvisoriesOf(rest, severity);
        }
      }
    }
  }

  lemma {:induction false} VulnerabilitiesCounted(l: seq<Vulnerability>, severity: string)
    ensures CountVulnerabilities(l, severity) == |VulnerabilitiesOf(l, severity)|
  {
    if l != [] {
      var rest := l[1..];
      VulnerabilitiesCounted(rest, severity);
      var moved := set i | i in VulnerabilitiesOf(rest, severity) :: i + 1;
      Shifted(VulnerabilitiesOf(rest, severity), moved);
      var first := if l[0].Vulnerability? && l[0].severity == severity then {0} else {};
      assert VulnerabilitiesOf(l, severity) == first + moved by {
        assert forall i | 0 < i < |l| :: l[i] == rest[i - 1];
        forall i | i in VulnerabilitiesOf(l, severity) && i > 0 ensures i in moved {
          assert i - 1 in VulnerabilitiesOf(rest, severity);
        }
      }
    }
  }

  lemma {:induction false} Shifted(s: set<int>, moved: set<int>)
    requires moved == set i | i in s :: i + 1
    ensures |moved| == |s|
  {
    if s == {} {
      assert moved == {};
    } else {
      assert exists x :: x in s by { assert (forall x :: x !in s) ==> s == {}; }
      var x :| x in s;
      var rest := set i | i in s - {x} :: i + 1;
      Shifted(s - {x}, rest);
      forall y | y in moved ensures y in rest + {x + 1} {
        var i :| i in s && y == i + 1;
        assert i != x ==> i in s - {x};
      }
      assert moved == rest + {x + 1};
    }
  }

  lemma DetailedIsNumber(r: Report, severity: string)
    requires r.Report? && (Entries(r.advisories) == [] || Entries(r.vulnerabilities) == [])
    requires Readable(r.advisories) && Readable(r.vulnerabilities)
    ensures Detailed(r, severity) == Some(Number(r, severity))
  {
    AdvisoriesCounted(Entries(r.advisories), severity);
    VulnerabilitiesCounted(Entries(r.vulnerabilities), severity);
  }

  lemma ConsistentMeans(fs: seq<Finding>)
    ensures Consistent(fs)
            <==> forall f, g | f in fs && g in fs && Alike(f, g) :: f.severity == g.severity
  {
    hide KeyOf, Identified;
  }

  /** The validator accepts exactly the reliable reports. */
  lemma ValidatedExactly(r: Report)
    ensures Validated(r) <==> Reliable(r)
  {
    hide Findings, Consistent, Number, Alike;
    if r.Report? {
      ConsistentMeans(Findings(r));
      if (Entries(r.advisories) == [] || Entries(r.vulnerabilities) == [])
         && Readable(r.advisories) && Readable(r.vulnerabilities) {
        DetailedIsNumber(r, "high");
        DetailedIsNumber(r, "critical");
        EmptyHasNone(r);
        if Shaped(r) && TotalsAgree(r) {
          OmissionCheckIsRedundant(r);
        }
      }
    }
  }

  lemma EmptyHasNone(r: Report)
    requires r.Report?
    ensures Entries(r.advisories) == [] && Entries(r.vulnerabilities) == [] ==>
              Number(r, "high") == 0 && Number(r, "critical") == 0
  {
  }

  // ---- exceptions ------------------------------------------------------------------------------------

  datatype Exception = Exception(
    package: string, advisory: string, severity: string, mitigation: string, expiresOn: string, owner: string)

  type Dates = string -> Option<int>

  predicate Filled(e: Exception) {
    e.package != "" && e.advisory != "" && e.severity != "" && e.mitigation != "" && e.expiresOn != "" && e.owner != ""
  }

  function ExceptionKey(e: Exception): Key {
    Key(Strip(e.package), Normal(e.advisory))
  }

  predicate WellFormed(dates: Dates, e: Exception) {
    Filled(e) && dates(e.expiresOn).Some? && ExceptionKey(e).package != "" && ExceptionKey(e).advisory != ""
  }

  predicate DistinctKeys(es: seq<Exception>) {
    forall i, j | 0 <= i < j < |es| :: ExceptionKey(es[i]) != ExceptionKey(es[j])
  }

  predicate GoodExceptions(dates: Dates, es: seq<Exception>) {
    (forall i | 0 <= i < |es| :: WellFormed(dates, es[i])) && DistinctKeys(es)
  }

  datatype Indexed = Indexed(severity: string, expires: int)

  type Index = map<Key, Indexed>

  datatype Problem =
    | MissingFields | BadDate | MissingKey | DuplicateKey
    | NoName | NoAdvisory | SeverityMismatch

  /** The index holds exactly the exceptions, when all of them are good. */
  ghost predicate Indexes(index: Index, dates: Dates, es: seq<Exception>) {
    && (forall i | 0 <= i < |es| :: WellFormed(dates, es[i]))
    && (forall i | 0 <= i < |es| ::
          ExceptionKey(es[i]) in index
          && index[ExceptionKey(es[i])] == Indexed(Normal(es[i].severity), dates(es[i].expiresOn).value))
    && (forall k :: k in index ==> exists i :: 0 <= i < |es| && ExceptionKey(es[i]) == k)
  }

  method BuildIndex(dates: Dates, es: seq<Exception>) returns (index: Index, problems: seq<Problem>)
    ensures problems == [] <==> GoodExceptions(dates, es)
    ensures problems == [] ==> Indexes(index, dates, es)
  {
    hide Strip, Normal, Filled;
    index, problems := map[], [];
    for n := 0 to |es|
      invariant problems == [] <==> GoodExceptions(dates, es[..n])
      invariant problems == [] ==> Indexes(index, dates, es[..n])
    {
      var e := es[n];
      assert es[..n + 1] == es[..n] + [e];
      GoodGrows(dates, es[..n], e);
      var key := ExceptionKey(e);
      if !Filled(e) {
        problems := problems + [MissingFields];
        continue;
      }
      if dates(e.expiresOn).None? {
        problems := problems + [BadDate];
        continue;
      }
      if key.package == "" || key.advisory == "" {
        problems := problems + [MissingKey];
        continue;
      }
      if key in index {
        problems := problems + [DuplicateKey];
        continue;
      }
      ghost var before := index;
      index := index[key := Indexed(Normal(e.severity), dates(e.expiresOn).value)];
      if problems == [] {
        IndexGrows(before, dates, es[..n], e);
      }
    }
    assert es[..|es|] == es;
  }

  lemma GoodGrows(dates: Dates, es: seq<Exception>, e: Exception)
    ensures GoodExceptions(dates, es + [e])
            <==> GoodExceptions(dates, es) && WellFormed(dates, e)
                 && forall i | 0 <= i < |es| :: ExceptionKey(es[i]) != ExceptionKey(e)
  {
    hide ExceptionKey, WellFormed;
    var all := es + [e];
    assert forall i | 0 <= i < |es| :: all[i] == es[i];
    assert all[|es|] == e;
  }

  lemma IndexGrows(index: Index, dates: Dates, es: seq<Exception>, e: Exception)
    requires Indexes(index, dates, es) && WellFormed(dates, e) && ExceptionKey(e) !in index
    ensures Indexes(index[ExceptionKey(e) := Indexed(Normal(e.severity), dates(e.expiresOn).value)], dates, es + [e])
  {
    hide Strip, Normal, Filled;
    var all, key := es + [e], ExceptionKey(e);
    var next := index[key := Indexed(Normal(e.severity), dates(e.expiresOn).value)];
    forall k | k in next ensures exists i :: 0 <= i < |all| && ExceptionKey(all[i]) == k {
      if k == key {
        assert ExceptionKey(all[|es|]) == k;
      } else {
        var i :| 0 <= i < |es| && ExceptionKey(es[i]) == k;
        assert ExceptionKey(all[i]) == k;
      }
    }
  }

  // ---- coverage ------------------------------------------------------------------------------------

  /** A finding that must be covered but is not. */
  predicate Troubled(index: Index, today: int, f: Finding) {
    Severe(Normal(f.severity))
    && (|| f.name == "" || Normal(f.advisory) == "" || KeyOf(f) !in index
        || (index[KeyOf(f)].severity != "" && index[KeyOf(f)].severity != Normal(f.severity))
        || index[KeyOf(f)].expires < today)
  }

  /** The finding takes part in the de-duplication. */
  predicate Keyed(f: Finding) {
    Severe(Normal(f.severity)) && f.name != "" && Normal(f.advisory) != ""
  }

  predicate Repeated(fs: seq<Finding>, i: nat)
    requires i < |fs|
  {
    Keyed(fs[i]) && exists j :: 0 <= j < i && Keyed(fs[j]) && KeyOf(fs[j]) == KeyOf(fs[i])
  }

  /** No first finding of a key among the first n is in trouble. */
  ghost predicate Quiet(index: Index, today: int, fs: seq<Finding>, n: nat)
    requires n <= |fs|
  {
    forall i | 0 <= i < n && !Repeated(fs, i) :: !Troubled(index, today, fs[i])
  }

  ghost predicate SeenIn(seen: set<Key>, fs: seq<Finding>, n: nat)
    requires n <= |fs|
  {
    forall k :: k in seen <==> exists j :: 0 <= j < n && Keyed(fs[j]) && KeyOf(fs[j]) == k
  }

  lemma SeenGrows(seen: set<Key>, fs: seq<Finding>, n: nat)
    requires n < |fs| && SeenIn(seen, fs, n)
    ensures Keyed(fs[n]) ==> (KeyOf(fs[n]) in seen <==> Repeated(fs, n))
    ensures SeenIn(if Keyed(fs[n]) then seen + {KeyOf(fs[n])} else seen, fs, n + 1)
  {
    hide Keyed, KeyOf;
    var next := if Keyed(fs[n]) then seen + {KeyOf(fs[n])} else seen;
    forall k ensures k in next <==> exists j :: 0 <= j < n + 1 && Keyed(fs[j]) && KeyOf(fs[j]) == k {
      if exists j :: 0 <= j < n && Keyed(fs[j]) && KeyOf(fs[j]) == k {
        assert k in seen;
      }
    }
  }

  /** What the loop records about one finding. */
  method CheckFinding(index: Index, today: int, f: Finding)
    returns (problems: seq<Problem>, missing: bool, expired: bool)
    requires Keyed(f)
    ensures problems == [] && !missing && !expired <==> !Troubled(index, today, f)
  {
    hide KeyOf, Normal, Severe;
    problems, missing, expired := [], false, false;
    var key := KeyOf(f);
    if key !in index {
      return [], true, false;
    }
    var e := index[key];
    if e.severity != "" && e.severity != Normal(f.severity) {
      problems := [SeverityMismatch];
    }
    if e.expires < today {
      expired := true;
    }
  }

  /** The coverage loop, which looks at the first finding of each key only. */
  method CheckCoverage(index: Index, today: int, fs: seq<Finding>)
    returns (problems: seq<Problem>, missing: seq<Finding>, expired: seq<Finding>)
    ensures problems == [] && missing == [] && expired == [] <==> Quiet(index, today, fs, |fs|)
  {
    hide KeyOf, Normal, Severe, SeenIn, Repeated;
    problems, missing, expired := [], [], [];
    var seen: set<Key> := {};
    assert SeenIn(seen, fs, 0) by { NothingSeen(fs); }
    for n := 0 to |fs|
      invariant SeenIn(seen, fs, n)
      invariant problems == [] && missing == [] && expired == [] <==> Quiet(index, today, fs, n)
    {
      var f := fs[n];
      SeenGrows(seen, fs, n);
      OnlyKeyedRepeat(fs, n);
      if !Severe(Normal(f.severity)) {
        continue;
      }
      if f.name == "" {
        problems := problems + [NoName];
        continue;
      }
      if Normal(f.advisory) == "" {
        problems := problems + [NoAdvisory];
        continue;
      }
      var key := KeyOf(f);
      if key in seen {
        assert seen + {key} == seen;
        continue;
      }
      seen := seen + {key};
      var more, lacks, late := CheckFinding(index, today, f);
      problems := problems + more;
      if lacks {
        missing := missing + [f];
      }
      if late {
        expired := expired + [f];
      }
    }
  }

  lemma NothingSeen(fs: seq<Finding>)
    ensures SeenIn({}, fs, 0)
  {
  }

  lemma OnlyKeyedRepeat(fs: seq<Finding>, n: nat)
    requires n < |fs|
    ensures Repeated(fs, n) ==> Keyed(fs[n])
  {
  }

  /** Skipping repeated keys hides nothing in a consistent report. */
  lemma SkippingIsSafe(index: Index, today: int, fs: seq<Finding>)
    requires Consistent(fs)
    ensures Quiet(index, today, fs, |fs|) <==> forall i | 0 <= i < |fs| :: !Troubled(index, today, fs[i])
  {
    hide Troubled, Repeated, Keyed, KeyOf, Consistent;
    if Quiet(index, today, fs, |fs|) {
      forall i | 0 <= i < |fs| ensures !Troubled(index, today, fs[i]) {
        var j := FirstOfKey(fs, i);
        AlikeTroubled(index, today, fs, i, j);
      }
    }
  }

  lemma FirstOfKey(fs: seq<Finding>, i: nat) returns (j: nat)
    requires i < |fs|
    ensures j < |fs| && !Repeated(fs, j) && (j == i || (Keyed(fs[i]) && Keyed(fs[j]) && KeyOf(fs[j]) == KeyOf(fs[i])))
    decreases i
  {
    hide KeyOf, Keyed;
    j := i;
    if Repeated(fs, i) {
      var k :| 0 <= k < i && Keyed(fs[k]) && KeyOf(fs[k]) == KeyOf(fs[i]);
      j := FirstOfKey(fs, k);
    }
  }

  lemma NormalOfNothing()
    ensures Normal("") == ""
  {
  }

  lemma AlikeTroubled(index: Index, today: int, fs: seq<Finding>, i: nat, j: nat)
    requires Consistent(fs) && i < |fs| && j < |fs|
    requires j == i || (Keyed(fs[i]) && Keyed(fs[j]) && KeyOf(fs[j]) == KeyOf(fs[i]))
    ensures Troubled(index, today, fs[i]) == Troubled(index, today, fs[j])
  {
    hide KeyOf, Normal;
    NormalOfNothing();
  }

  /** Without the validator it would: the second severity of a key is never looked at. */
  lemma SkippingHidesConflicts()
    ensures var fs := [Finding("p", "high", "a"), Finding("p", "critical", "a")];
            var index := map[KeyOf(fs[0]) := Indexed("high", 10)];
            Quiet(index, 0, fs, 2) && Troubled(index, 0, fs[1])
  {
    hide Normal, Strip;
    var fs := [Finding("p", "high", "a"), Finding("p", "critical", "a")];
    SeveritiesAreNormal();
    WordIsNormal("a");
    assert Letters("a");
    assert KeyOf(fs[0]) == KeyOf(fs[1]);
    assert Keyed(fs[0]) && Keyed(fs[1]);
    assert Repeated(fs, 1);
  }

  lemma WordIsNormal(s: string)
    requires Letters(s)
    ensures Normal(s) == s
  {
    assert forall c :: 'a' <= c <= 'z' ==> !IsPySpace(c);
    LettersAreNormal(s, IsPySpace);
  }

  lemma SeveritiesAreNormal()
    ensures Normal("high") == "high" && Normal("critical") == "critical"
    ensures Normal("info") == "info" && Normal("low") == "low" && Normal("moderate") == "moderate"
  {
    hide Normal;
    WordIsNormal("high");
    WordIsNormal("critical");
    WordIsNormal("info");
    WordIsNormal("low");
    WordIsNormal("moderate");
  }

  // ---- the gate ------------------------------------------------------------------------------------

  /** An exception accepts a finding: same key, unexpired, same severity or a blank one. */
  predicate Excuses(dates: Dates, today: int, e: Exception, f: Finding) {
    && ExceptionKey(e) == KeyOf(f)
    && dates(e.expiresOn).Some? && dates(e.expiresOn).value >= today
    && (Normal(e.severity) == "" || Normal(e.severity) == f.severity)
  }

  ghost predicate Excused(dates: Dates, today: int, es: seq<Exception>, f: Finding) {
    exists i :: 0 <= i < |es| && Excuses(dates, today, es[i], f)
  }

  ghost predicate Covered(dates: Dates, today: int, es: seq<Exception>, fs: seq<Finding>) {
    forall i | 0 <= i < |fs| && Severe(fs[i].severity) ::
      fs[i].name != "" && Normal(fs[i].advisory) != "" && Excused(dates, today, es, fs[i])
  }

  lemma KnownIsNormal(severity: string)
    requires Known(severity)
    ensures Normal(severity) == severity
  {
    hide Normal;
    SeveritiesAreNormal();
  }

  /** One finding is in no trouble exactly when it is harmless or excused. */
  lemma TroubleExactly(index: Index, dates: Dates, es: seq<Exception>, today: int, f: Finding)
    requires Indexes(index, dates, es) && DistinctKeys(es) && Known(f.severity)
    ensures !Troubled(index, today, f)
            <==> !Severe(f.severity) || (f.name != "" && Normal(f.advisory) != "" && Excused(dates, today, es, f))
  {
    hide Normal, ExceptionKey, KeyOf, Filled;
    KnownIsNormal(f.severity);
    if KeyOf(f) in index {
      var i :| 0 <= i < |es| && ExceptionKey(es[i]) == KeyOf(f);
      assert index[KeyOf(f)] == Indexed(Normal(es[i].severity), dates(es[i].expiresOn).value);
      if Excused(dates, today, es, f) {
        var k :| 0 <= k < |es| && Excuses(dates, today, es[k], f);
        assert k == i;
      }
      assert Excused(dates, today, es, f) <==> Excuses(dates, today, es[i], f);
    }
  }

  lemma CoveredExactly(index: Index, dates: Dates, es: seq<Exception>, today: int, fs: seq<Finding>)
    requires Indexes(index, dates, es) && DistinctKeys(es) && forall i | 0 <= i < |fs| :: Known(fs[i].severity)
    ensures (forall i | 0 <= i < |fs| :: !Troubled(index, today, fs[i])) <==> Covered(dates, today, es, fs)
  {
    hide Troubled, Excused, Normal, Indexes, Severe, Known;
    forall i | 0 <= i < |fs|
      ensures !Troubled(index, today, fs[i])
              <==> || !Severe(fs[i].severity)
                   || (fs[i].name != "" && Normal(fs[i].advisory) != "" && Excused(dates, today, es, fs[i]))
    {
      TroubleExactly(index, dates, es, today, fs[i]);
    }
  }

  lemma {:induction false} AdvisoriesKnown(l: seq<Advisory>)
    requires KnownAdvisories(l)
    ensures forall i | 0 <= i < |OfAdvisories(l)| :: Known(OfAdvisories(l)[i].severity)
  {
    hide Known;
    if l != [] {
      assert forall i | 0 <= i < |l[1..]| :: l[1..][i] == l[i + 1];
      AdvisoriesKnown(l[1..]);
    }
  }

  lemma {:induction false} VulnerabilitiesKnown(l: seq<Vulnerability>)
    requires KnownVulnerabilities(l)
    ensures forall i | 0 <= i < |OfVulnerabilities(l)| :: Known(OfVulnerabilities(l)[i].severity)
  {
    hide Known;
    if l != [] {
      assert forall i | 0 <= i < |l[1..]| :: l[1..][i] == l[i + 1];
      VulnerabilitiesKnown(l[1..]);
      CausesShareSeverity(l[0].package, l[0].severity, l[0].via);
    }
  }

  lemma FindingsKnown(r: Report)
    requires Shaped(r)
    ensures forall i | 0 <= i < |Findings(r)| :: Known(Findings(r)[i].severity)
  {
    hide Known, KnownAdvisories, KnownVulnerabilities;
    if r.advisories.Dict? {
      AdvisoriesKnown(r.advisories.entries);
    }
    if r.vulnerabilities.Dict? {
      VulnerabilitiesKnown(r.vulnerabilities.entries);
    }
  }

  method Validate(r: Report) returns (ok: bool)
    ensures ok == Validated(r)
  {
    hide Consistent, Complete, TotalsAgree, EmptyMeansNone;
    if !Shaped(r) || !TotalsAgree(r) {
      return false;
    }
    ok := CheckConsistent(Findings(r));
    ok := ok && Complete(r) && EmptyMeansNone(r);
  }

  /** The gate is passed exactly when the report is valid, every exception is well-formed and has its
      own key, and every high or critical finding is named, identified and excused. */
  method RunGate(r: Report, es: seq<Exception>, dates: Dates, today: int) returns (exit: int)
    ensures exit == 0 || exit == 1
    ensures exit == 0 <==> Reliable(r) && GoodExceptions(dates, es) && Covered(dates, today, es, Findings(r))
  {
    ValidatedExactly(r);
    hide Covered, Indexes, Quiet, Consistent, TotalsAgree, Complete, EmptyMeansNone, Shaped, WellFormed, Reliable;
    var valid := Validate(r);
    if !valid {
      return 1;
    }
    assert Shaped(r) && r.Report? by { ShapedIsReport(r); }
    var index, problems := BuildIndex(dates, es);
    var fs := Findings(r);
    var more, missing, expired := CheckCoverage(index, today, fs);
    if problems == [] {
      FindingsKnown(r);
      SkippingIsSafe(index, today, fs);
      CoveredExactly(index, dates, es, today, fs);
    }
    if problems != [] || more != [] || missing != [] || expired != [] {
      return 1;
    }
    return 0;
  }

  lemma ShapedIsReport(r: Report)
    requires Validated(r)
    ensures Shaped(r) && r.Report?
  {
  }

  /** Equal severity, nothing less. */
  ghost predicate StrictlyCovered(dates: Dates, today: int, es: seq<Exception>, fs: seq<Finding>) {
    forall i | 0 <= i < |fs| && Severe(fs[i].severity) ::
      fs[i].name != "" && Normal(fs[i].advisory) != ""
      && exists k :: 0 <= k < |es| && Excuses(dates, today, es[k], fs[i]) && Normal(es[k].severity) == fs[i].severity
  }

  /** Coverage means equal severities exactly when no exception that excuses a finding has a severity
      of nothing but white space. */
  lemma BlankSeverityExactly(dates: Dates, today: int, es: seq<Exception>, fs: seq<Finding>)
    requires GoodExceptions(dates, es) && Covered(dates, today, es, fs)
    ensures StrictlyCovered(dates, today, es, fs)
            <==> forall i, k | 0 <= i < |fs| && 0 <= k < |es| && Severe(fs[i].severity)
                && Excuses(dates, today, es[k], fs[i]) ::
                   Normal(es[k].severity) != ""
  {
  }

  /** A quoted blank passes the check for missing fields and then matches any severity. */
  lemma BlankSeverityIsAccepted(dates: Dates, today: int)
    requires dates("d") == Some(today)
    ensures var e := Exception("p", "a", " ", "m", "d", "o");
            && WellFormed(dates, e) && Excuses(dates, today, e, Finding("p", "critical", "a"))
            && Normal(e.severity) != "critical"
  {
    hide Normal, Strip;
    BlankIsNothing();
    WordIsNormal("a");
    WordIsStripped("p");
    assert "p" != "" && "a" != "" && "critical" != "";
  }

  lemma BlankIsNothing()
    ensures Normal(" ") == ""
  {
  }

  lemma WordIsStripped(s: string)
    requires Letters(s)
    ensures Strip(s) == s
  {
    hide Lower;
    assert forall c :: 'a' <= c <= 'z' ==> !IsPySpace(c);
  }
}
