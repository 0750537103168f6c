/** The verdict of every competitor and cell, the worst ratios and the overall pass flag. */
module ParityReport {
  import opened Common
  import opened Parity
  import opened Samples
  import opened Suites

  datatype Verdict = Pass | Fail | Invalid

  /** What the detail text reports; its numbers are those of the comparison. */
  datatype Detail =
    | NoDetail | MissingMeasurement | AuditFailed | FailureRateAbove(subject: real, competitor: real)
    | NonPositiveThroughput | OneSidedLatency | GateMissed(throughput: bool, latency: bool)

  datatype Comparison = Comparison(
    cell: Cell, competitor: string, subjectOps: real, competitorOps: real, subjectP99: real, competitorP99: real,
    throughputRatio: real, p99Ratio: real, verdict: Verdict, detail: Detail)

  /** The gates with the tolerance applied. */
  datatype Limits = Limits(throughputFloor: real, p99Ceiling: real, maximumFailureRate: real)

  function LimitsOf(g: Gates): Limits {
    var tolerance := g.tolerancePercent / 100.0;
    Limits(g.throughputRatioMinimum * (1.0 - tolerance), g.p99RatioMaximum * (1.0 + tolerance), g.maximumFailureRate)
  }

  function ThroughputRatio(subject: Aggregate, peer: Aggregate): real {
    if peer.ops > 0.0 then subject.ops / peer.ops else 0.0
  }

  function LatencyRatio(subject: Aggregate, peer: Aggregate): real {
    if peer.p99 > 0.0 && subject.p99 > 0.0 then subject.p99 / peer.p99 else 1.0
  }

  function Judge(l: Limits, subject: Aggregate, peer: Aggregate): (Verdict, Detail) {
    if subject.audit == "failed" || peer.audit == "failed" then (Invalid, AuditFailed)
    else if subject.failureRate > l.maximumFailureRate || peer.failureRate > l.maximumFailureRate then
      (Invalid, FailureRateAbove(subject.failureRate, peer.failureRate))
    else if peer.ops <= 0.0 || subject.ops <= 0.0 then (Invalid, NonPositiveThroughput)
    else if (peer.p99 <= 0.0) != (subject.p99 <= 0.0) then (Invalid, OneSidedLatency)
    else
      var throughputOk := ThroughputRatio(subject, peer) >= l.throughputFloor;
      var latencyOk := LatencyRatio(subject, peer) <= l.p99Ceiling;
      if throughputOk && latencyOk then (Pass, NoDetail) else (Fail, GateMissed(!throughputOk, !latencyOk))
  }

  function Compare(
      l: Limits, cell: Cell, competitor: string, subject: Option<Aggregate>, peer: Option<Aggregate>): Comparison
  {
    if subject.None? || peer.None? then
      Comparison(
        cell, competitor,
        if subject.Some? then subject.value.ops else 0.0, if peer.Some? then peer.value.ops else 0.0,
        if subject.Some? then subject.value.p99 else 0.0, if peer.Some? then peer.value.p99 else 0.0,
        0.0, 0.0, Invalid, MissingMeasurement)
    else
      var (verdict, detail) := Judge(l, subject.value, peer.value);
      Comparison(
        cell, competitor, subject.value.ops, peer.value.ops, subject.value.p99, peer.value.p99,
        ThroughputRatio(subject.value, peer.value), LatencyRatio(subject.value, peer.value), verdict, detail)
  }

  // ---- When a pair passes, without ratios ----

  predicate Sound(l: Limits, group: seq<Record>) {
    && group != []
    && !AnyFailed(group)
    && (forall r :: r in group ==> r.failureRate <= l.maximumFailureRate)
    && MedianOf(Column(Throughput, group)) > 0.0
  }

  predicate ThroughputAcceptable(l: Limits, subject: real, peer: real) { subject >= l.throughputFloor * peer }

  predicate LatencyAcceptable(l: Limits, subject: real, peer: real) {
    if subject > 0.0 then peer > 0.0 && subject <= l.p99Ceiling * peer
    else peer <= 0.0 && l.p99Ceiling >= 1.0
  }

  predicate PairPasses(l: Limits, subject: seq<Record>, peer: seq<Record>) {
    && l.maximumFailureRate >= 0.0
    && Sound(l, subject) && Sound(l, peer)
    && ThroughputAcceptable(l, MedianOf(Column(Throughput, subject)), MedianOf(Column(Throughput, peer)))
    && LatencyAcceptable(l, MedianOf(Column(P99, subject)), MedianOf(Column(P99, peer)))
  }

  lemma RatioBound(a: real, b: real, f: real)
    requires b > 0.0
    ensures a / b >= f <==> a >= f * b
    ensures a / b <= f <==> a <= f * b
  {
    var q := a / b;
    assert a == q * b;
    if q >= f {
      assert (q - f) * b >= 0.0;
    } else {
      assert (f - q) * b > 0.0;
    }
    if q <= f {
      assert (f - q) * b >= 0.0;
    } else {
      assert (q - f) * b > 0.0;
    }
  }

  lemma RatesWithin(l: Limits, group: seq<Record>)
    ensures WorstRate(Column(FailureRate, group)) <= l.maximumFailureRate
            <==> l.maximumFailureRate >= 0.0 && forall r :: r in group ==> r.failureRate <= l.maximumFailureRate
  {
    var rates := Column(FailureRate, group);
    assert forall i :: 0 <= i < |group| ==> rates[i] == group[i].failureRate && rates[i] in rates;
  }

  function SummaryOf(group: seq<Record>): Option<Aggregate> {
    if group == [] then None else Some(Summary(group))
  }

  lemma RatiosMeet(l: Limits, s: Aggregate, p: Aggregate)
    requires s.ops > 0.0 && p.ops > 0.0
    ensures ThroughputRatio(s, p) >= l.throughputFloor <==> ThroughputAcceptable(l, s.ops, p.ops)
    ensures (s.p99 > 0.0 <==> p.p99 > 0.0) && LatencyRatio(s, p) <= l.p99Ceiling <==> LatencyAcceptable(l, s.p99, p.p99)
  {
    RatioBound(s.ops, p.ops, l.throughputFloor);
    if p.p99 > 0.0 {
      RatioBound(s.p99, p.p99, l.p99Ceiling);
    }
  }

  predicate AggregateSound(l: Limits, a: Aggregate) {
    a.audit != "failed" && a.failureRate <= l.maximumFailureRate && a.ops > 0.0
  }

  predicate AggregatesPass(l: Limits, s: Aggregate, p: Aggregate) {
    && AggregateSound(l, s) && AggregateSound(l, p)
    && ThroughputAcceptable(l, s.ops, p.ops) && LatencyAcceptable(l, s.p99, p.p99)
  }

  lemma JudgePasses(l: Limits, s: Aggregate, p: Aggregate)
    ensures Judge(l, s, p).0 == Pass <==> AggregatesPass(l, s, p)
  {
    if s.ops > 0.0 && p.ops > 0.0 {
      RatiosMeet(l, s, p);
    }
  }

  lemma ComparePasses(l: Limits, cell: Cell, competitor: string, s: Aggregate, p: Aggregate)
    ensures Compare(l, cell, competitor, Some(s), Some(p)).verdict == Pass <==> AggregatesPass(l, s, p)
  {
    JudgePasses(l, s, p);
  }

  lemma SoundIff(l: Limits, group: seq<Record>)
    requires group != []
    ensures AggregateSound(l, Summary(group)) <==> l.maximumFailureRate >= 0.0 && Sound(l, group)
  {
    AuditFailedIff(group);
    RatesWithin(l, group);
  }

  lemma GroupsPass(l: Limits, subject: seq<Record>, peer: seq<Record>)
    requires subject != [] && peer != []
    ensures AggregatesPass(l, Summary(subject), Summary(peer)) <==> PairPasses(l, subject, peer)
  {
    SoundIff(l, subject);
    SoundIff(l, peer);
  }

  lemma PassIffPair(l: Limits, cell: Cell, competitor: string, subject: seq<Record>, peer: seq<Record>)
    ensures Compare(l, cell, competitor, SummaryOf(subject), SummaryOf(peer)).verdict == Pass
            <==> PairPasses(l, subject, peer)
  {
    if subject != [] && peer != [] {
      ComparePasses(l, cell, competitor, Summary(subject), Summary(peer));
      GroupsPass(l, subject, peer);
    }
  }

  // ---- The report ----

  predicate HasSubject(targets: seq<Target>) { exists i :: 0 <= i < |targets| && targets[i].role.Subject? }

  function SubjectOf(targets: seq<Target>): (t: Target)
    requires HasSubject(targets)
    ensures t in targets && t.role.Subject?
  {
    if targets[0].role.Subject? then targets[0] else
      var i :| 0 <= i < |targets| && targets[i].role.Subject?;
      assert targets[1..][i - 1] == targets[i];
      SubjectOf(targets[1..])
  }

  function Measured(records: seq<Record>, target: string, cell: Cell): Option<Aggregate> {
    SummaryOf(Group(records, (target, Slug(cell))))
  }

  function PairAt(s: Suite, records: seq<Record>, competitor: string, cell: Cell): Comparison
    requires HasSubject(s.targets)
  {
    Compare(
      LimitsOf(s.gates), cell, competitor,
      Measured(records, SubjectOf(s.targets).name, cell), Measured(records, competitor, cell))
  }

  function ForCompetitor(s: Suite, records: seq<Record>, competitor: string, cells: seq<Cell>): seq<Comparison>
    requires HasSubject(s.targets)
  {
    seq(|cells|, i requires 0 <= i < |cells| => PairAt(s, records, competitor, cells[i]))
  }

  function ForTarget(s: Suite, records: seq<Record>, t: Target): seq<Comparison>
    requires HasSubject(s.targets)
  {
    if t.role.Competitor? then ForCompetitor(s, records, t.name, CellsOf(s.workload)) else []
  }

  function Rows(s: Suite, records: seq<Record>, targets: seq<Target>): seq<seq<Comparison>>
    requires HasSubject(s.targets)
  {
    seq(|targets|, i requires 0 <= i < |targets| => ForTarget(s, records, targets[i]))
  }

  function Flatten<T>(rows: seq<seq<T>>): seq<T> {
    if rows == [] then [] else Flatten(rows[..|rows| - 1]) + rows[|rows| - 1]
  }

  lemma FlattenStep<T>(rows: seq<seq<T>>, row: seq<T>)
    ensures Flatten(rows + [row]) == Flatten(rows) + row
  {
    assert (rows + [row])[..|rows|] == rows;
  }

  lemma {:induction false} FlattenMembers<T>(rows: seq<seq<T>>, x: T)
    ensures x in Flatten(rows) <==> exists i :: 0 <= i < |rows| && x in rows[i]
  {
    if rows != [] {
      var front := rows[..|rows| - 1];
      FlattenMembers(front, x);
      assert forall i :: 0 <= i < |front| ==> front[i] == rows[i];
    }
  }

  /** One comparison for every competitor, in suite order, and every cell, in matrix order. */
  function Comparisons(s: Suite, records: seq<Record>): seq<Comparison>
    requires HasSubject(s.targets)
  {
    Flatten(Rows(s, records, s.targets))
  }

  function RoleOf(targets: seq<Target>, name: string): Option<Role> {
    if targets == [] then None
    else if targets[0].name == name then Some(targets[0].role)
    else RoleOf(targets[1..], name)
  }

  function CeilingsOf(s: Suite, records: seq<Record>): seq<Record> {
    if records == [] then []
    else
      var last := records[|records| - 1];
      CeilingsOf(s, records[..|records| - 1]) + if RoleOf(s.targets, last.target) == Some(Ceiling) then [last] else []
  }

  /** The smallest throughput ratio over the comparisons that are not invalid. */
  function WorstThroughput(cs: seq<Comparison>): (w: Option<real>)
    ensures w.None? <==> forall c :: c in cs ==> c.verdict.Invalid?
    ensures w.Some? ==> exists c :: c in cs && !c.verdict.Invalid? && c.throughputRatio == w.value
    ensures w.Some? ==> forall c :: c in cs && !c.verdict.Invalid? ==> c.throughputRatio >= w.value
  {
    if cs == [] then None
    else
      var front, last := cs[..|cs| - 1], cs[|cs| - 1];
      assert cs == front + [last];
      var before := WorstThroughput(front);
      if last.verdict.Invalid? then before
      else if before.Some? && before.value <= last.throughputRatio then before
      else Some(last.throughputRatio)
  }

  /** The largest latency ratio over the comparisons that are not invalid. */
  function WorstLatency(cs: seq<Comparison>): (w: Option<real>)
    ensures w.None? <==> forall c :: c in cs ==> c.verdict.Invalid?
    ensures w.Some? ==> exists c :: c in cs && !c.verdict.Invalid? && c.p99Ratio == w.value
    ensures w.Some? ==> forall c :: c in cs && !c.verdict.Invalid? ==> c.p99Ratio <= w.value
  {
    if cs == [] then None
    else
      var front, last := cs[..|cs| - 1], cs[|cs| - 1];
      assert cs == front + [last];
      var before := WorstLatency(front);
      if last.verdict.Invalid? then before
      else if before.Some? && before.value >= last.p99Ratio then before
      else Some(last.p99Ratio)
  }

  datatype Report = Report(
    comparisons: seq<Comparison>, ceilings: seq<Record>, worstThroughput: Option<real>, worstLatency: Option<real>,
    failed: nat, invalid: nat, passed: bool)

  function CountVerdict(cs: seq<Comparison>, v: Verdict): (n: nat)
    ensures n == 0 <==> forall c :: c in cs ==> c.verdict != v
  {
    if cs == [] then 0
    else
      assert cs == cs[..|cs| - 1] + [cs[|cs| - 1]];
      CountVerdict(cs[..|cs| - 1], v) + if cs[|cs| - 1].verdict == v then 1 else 0
  }

  function Conclude(g: Gates, cs: seq<Comparison>, ceilings: seq<Record>): Result<Report> {
    if cs == [] then Err("no competitor comparisons could be computed")
    else
      var failed, invalid := CountVerdict(cs, Fail), CountVerdict(cs, Invalid);
      Ok(Report(
           cs, ceilings, WorstThroughput(cs), WorstLatency(cs), failed, invalid,
           if g.required then failed == 0 && invalid == 0 else true))
  }

  function ReportOf(s: Suite, records: seq<Record>): Result<Report>
    requires HasSubject(s.targets)
  {
    Conclude(s.gates, Comparisons(s, records), CeilingsOf(s, records))
  }

  method Lookup(agg: map<Key, Aggregate>, ghost records: seq<Record>, target: string, cell: Cell)
    returns (a: Option<Aggregate>)
    requires AggregatedAt(agg, records, (target, Slug(cell)))
    ensures a == Measured(records, target, cell)
  {
    var key := (target, Slug(cell));
    a := if key in agg then Some(agg[key]) else None;
  }

  method ComparePair(s: Suite, agg: map<Key, Aggregate>, ghost records: seq<Record>, competitor: string, cell: Cell)
    returns (c: Comparison)
    requires HasSubject(s.targets) && forall key :: AggregatedAt(agg, records, key)
    ensures c == PairAt(s, records, competitor, cell)
  {
    var subject := Lookup(agg, records, SubjectOf(s.targets).name, cell);
    var peer := Lookup(agg, records, competitor, cell);
    c := Compare(LimitsOf(s.gates), cell, competitor, subject, peer);
  }

  lemma ForCompetitorStep(s: Suite, records: seq<Record>, competitor: string, cells: seq<Cell>, i: nat)
    requires HasSubject(s.targets) && i < |cells|
    ensures ForCompetitor(s, records, competitor, cells)[..i] + [PairAt(s, records, competitor, cells[i])]
         == ForCompetitor(s, records, competitor, cells)[..i + 1]
  {
    var row := ForCompetitor(s, records, competitor, cells);
    assert row[..i + 1] == row[..i] + [row[i]];
  }

  method CompareCells(
      s: Suite, agg: map<Key, Aggregate>, ghost records: seq<Record>, competitor: string, cells: seq<Cell>)
    returns (cs: seq<Comparison>)
    requires HasSubject(s.targets) && forall key :: AggregatedAt(agg, records, key)
    ensures cs == ForCompetitor(s, records, competitor, cells)
  {
    cs := [];
    ghost var row := ForCompetitor(s, records, competitor, cells);
    for i := 0 to |cells|
      invariant cs == row[..i]
    {
      var c := ComparePair(s, agg, records, competitor, cells[i]);
      ForCompetitorStep(s, records, competitor, cells, i);
      cs := cs + [c];
    }
  }

  method CompareTargets(s: Suite, agg: map<Key, Aggregate>, ghost records: seq<Record>) returns (cs: seq<Comparison>)
    requires HasSubject(s.targets) && forall key :: AggregatedAt(agg, records, key)
    ensures cs == Comparisons(s, records)
  {
    cs := [];
    ghost var rows: seq<seq<Comparison>> := [];
    for i := 0 to |s.targets|
      invariant rows == Rows(s, records, s.targets[..i]) && cs == Flatten(rows)
    {
      var more := CompareTarget(s, agg, records, s.targets[i]);
      FlattenStep(rows, more);
      cs, rows := cs + more, rows + [more];
    }
    assert s.targets[..|s.targets|] == s.targets;
  }

  method CompareTarget(s: Suite, agg: map<Key, Aggregate>, ghost records: seq<Record>, t: Target)
    returns (cs: seq<Comparison>)
    requires HasSubject(s.targets) && forall key :: AggregatedAt(agg, records, key)
    ensures cs == ForTarget(s, records, t)
  {
    cs := [];
    if t.role.Competitor? {
      var cells := Cells(s.workload);
      cs := CompareCells(s, agg, records, t.name, cells);
    }
  }

  method CollectCeilings(s: Suite, records: seq<Record>) returns (ceilings: seq<Record>)
    ensures ceilings == CeilingsOf(s, records)
  {
    ceilings := [];
    for i := 0 to |records|
      invariant ceilings == CeilingsOf(s, records[..i])
    {
      if RoleOf(s.targets, records[i].target) == Some(Ceiling) {
        ceilings := ceilings + [records[i]];
      }
      assert records[..i + 1][..i] == records[..i];
    }
    assert records[..|records|] == records;
  }

  method Compute(s: Suite, records: seq<Record>) returns (r: Result<Report>)
    requires HasSubject(s.targets)
    ensures r == ReportOf(s, records)
  {
    var agg := AggregateRecords(records);
    var ceilings := CollectCeilings(s, records);
    var cs := CompareTargets(s, agg, records);
    r := Conclude(s.gates, cs, ceilings);
  }

  // ---- Which records a report depends on ----

  /** The subject or a competitor of the suite. */
  predicate Gated(s: Suite, name: string)
    requires HasSubject(s.targets)
  {
    name == SubjectOf(s.targets).name || exists t :: t in s.targets && t.role.Competitor? && t.name == name
  }

  /** Same numbers, and the audit either failed in both or in neither. */
  predicate SameForGates(a: Option<Aggregate>, b: Option<Aggregate>) {
    if a.None? || b.None? then a == b
    else
      && a.value.(audit := "") == b.value.(audit := "")
      && (a.value.audit == "failed" <==> b.value.audit == "failed")
  }

  lemma SummaryPermuted(a: seq<Record>, b: seq<Record>)
    requires multiset(a) == multiset(b)
    ensures SameForGates(SummaryOf(a), SummaryOf(b))
  {
    assert |multiset(a)| == |a| && |multiset(b)| == |b|;
    if a != [] {
      ColumnPermuted(Throughput, a, b);
      ColumnPermuted(P99, a, b);
      ColumnPermuted(FailureRate, a, b);
      MedianPermuted(Column(Throughput, a), Column(Throughput, b));
      MedianPermuted(Column(P99, a), Column(P99, b));
      WorstRatePermuted(Column(FailureRate, a), Column(FailureRate, b));
      AuditFailedIff(a);
      AuditFailedIff(b);
      assert forall r :: r in a <==> r in multiset(a);
      assert forall r :: r in b <==> r in multiset(b);
    }
  }

  /** The two record lists agree, as multisets, on the records of the subject and of the competitors. */
  ghost predicate AgreeOnGated(s: Suite, a: seq<Record>, b: seq<Record>)
    requires HasSubject(s.targets)
  {
    forall r: Record :: Gated(s, r.target) ==> multiset(a)[r] == multiset(b)[r]
  }

  lemma MeasuredSame(s: Suite, a: seq<Record>, b: seq<Record>, target: string, cell: Cell)
    requires HasSubject(s.targets) && AgreeOnGated(s, a, b) && Gated(s, target)
    ensures SameForGates(Measured(a, target, cell), Measured(b, target, cell))
  {
    var key := (target, Slug(cell));
    forall r: Record
      ensures multiset(Group(a, key))[r] == multiset(Group(b, key))[r]
    {
      GroupCount(a, key, r);
      GroupCount(b, key, r);
    }
    assert multiset(Group(a, key)) == multiset(Group(b, key));
    SummaryPermuted(Group(a, key), Group(b, key));
  }

  lemma CompareSame(l: Limits, cell: Cell, competitor: string, s: Option<Aggregate>, p: Option<Aggregate>,
                    s': Option<Aggregate>, p': Option<Aggregate>)
    requires SameForGates(s, s') && SameForGates(p, p')
    ensures Compare(l, cell, competitor, s, p) == Compare(l, cell, competitor, s', p')
  {
  }

  lemma ForTargetSame(s: Suite, a: seq<Record>, b: seq<Record>, t: Target)
    requires HasSubject(s.targets) && AgreeOnGated(s, a, b) && t in s.targets
    ensures ForTarget(s, a, t) == ForTarget(s, b, t)
  {
    if t.role.Competitor? {
      forall cell: Cell
        ensures PairAt(s, a, t.name, cell) == PairAt(s, b, t.name, cell)
      {
        PairSame(s, a, b, t.name, cell);
      }
    }
  }

  lemma PairSame(s: Suite, a: seq<Record>, b: seq<Record>, competitor: string, cell: Cell)
    requires HasSubject(s.targets) && AgreeOnGated(s, a, b) && Gated(s, competitor)
    ensures PairAt(s, a, competitor, cell) == PairAt(s, b, competitor, cell)
  {
    var subject := SubjectOf(s.targets).name;
    MeasuredSame(s, a, b, subject, cell);
    MeasuredSame(s, a, b, competitor, cell);
    CompareSame(
      LimitsOf(s.gates), cell, competitor, Measured(a, subject, cell), Measured(a, competitor, cell),
      Measured(b, subject, cell), Measured(b, competitor, cell));
  }

  lemma ComparisonsSame(s: Suite, a: seq<Record>, b: seq<Record>)
    requires HasSubject(s.targets) && AgreeOnGated(s, a, b)
    ensures Comparisons(s, a) == Comparisons(s, b)
  {
    forall t | t in s.targets
      ensures ForTarget(s, a, t) == ForTarget(s, b, t)
    {
      ForTargetSame(s, a, b, t);
    }
    assert Rows(s, a, s.targets) == Rows(s, b, s.targets);
  }

  /** Everything but the ceiling records, which are listed in record order. */
  function WithoutCeilings(r: Result<Report>): Result<Report> {
    if r.Err? then r else Ok(r.value.(ceilings := []))
  }

  /** The comparisons, worst ratios, counts and pass flag depend only on the multiset of gated records. */
  lemma ReportDependsOnGated(s: Suite, a: seq<Record>, b: seq<Record>)
    requires HasSubject(s.targets) && AgreeOnGated(s, a, b)
    ensures WithoutCeilings(ReportOf(s, a)) == WithoutCeilings(ReportOf(s, b))
  {
    ComparisonsSame(s, a, b);
  }

  lemma ReportIgnoresOrder(s: Suite, a: seq<Record>, b: seq<Record>)
    requires HasSubject(s.targets) && multiset(a) == multiset(b)
    ensures WithoutCeilings(ReportOf(s, a)) == WithoutCeilings(ReportOf(s, b))
  {
    ReportDependsOnGated(s, a, b);
  }

  lemma {:induction false} RoleOfNamed(targets: seq<Target>, i: nat)
    requires i < |targets| && Distinct(Names(targets))
    ensures RoleOf(targets, targets[i].name) == Some(targets[i].role)
  {
    if i > 0 {
      assert Names(targets)[0] != Names(targets)[i];
      forall j, k | 0 <= j < k < |targets| - 1
        ensures Names(targets[1..])[j] != Names(targets[1..])[k]
      {
        assert Names(targets)[j + 1] != Names(targets)[k + 1];
      }
      RoleOfNamed(targets[1..], i - 1);
    }
  }

  lemma GatedRole(s: Suite, name: string)
    requires HasSubject(s.targets) && Distinct(Names(s.targets)) && Gated(s, name)
    ensures RoleOf(s.targets, name) in {Some(Subject), Some(Competitor)}
  {
    var i :| 0 <= i < |s.targets| && s.targets[i].name == name && !s.targets[i].role.Ceiling?;
    RoleOfNamed(s.targets, i);
  }

  lemma ValidHasSubject(s: Suite)
    requires Valid(s)
    ensures HasSubject(s.targets)
  {
    var i :| 0 <= i < |s.targets| && OnlySubject(s.targets, i);
    assert s.targets[i].role.Subject?;
  }

  /** Adding records of ceilings or of targets the suite does not list, anywhere and in any number, changes nothing. */
  lemma ReportIgnoresOthers(s: Suite, a: seq<Record>, extra: seq<Record>, b: seq<Record>)
    requires Valid(s) && multiset(b) == multiset(a) + multiset(extra)
    requires forall r :: r in extra ==> RoleOf(s.targets, r.target) in {None, Some(Ceiling)}
    ensures HasSubject(s.targets) && WithoutCeilings(ReportOf(s, a)) == WithoutCeilings(ReportOf(s, b))
  {
    ValidHasSubject(s);
    forall r: Record | Gated(s, r.target)
      ensures multiset(a)[r] == multiset(b)[r]
    {
      GatedRole(s, r.target);
      assert r !in multiset(extra);
    }
    ReportDependsOnGated(s, a, b);
  }

  // ---- When a suite passes ----

  predicate InMatrix(w: Workload, cell: Cell) {
    cell.operation in w.operations && cell.payloadSize in w.payloadSizes && cell.concurrency in w.concurrency
  }

  /** `c` compares the competitor `targets[i]` at some cell of the matrix. */
  ghost predicate Compares(s: Suite, records: seq<Record>, i: nat, c: Comparison)
    requires HasSubject(s.targets) && i < |s.targets|
  {
    && s.targets[i].role.Competitor?
    && exists cell :: cell in CellsOf(s.workload) && c == PairAt(s, records, s.targets[i].name, cell)
  }

  lemma ForTargetMembers(s: Suite, records: seq<Record>, i: nat, c: Comparison)
    requires HasSubject(s.targets) && i < |s.targets|
    ensures c in ForTarget(s, records, s.targets[i]) <==> Compares(s, records, i, c)
  {
    var cells, name := CellsOf(s.workload), s.targets[i].name;
    var row := ForCompetitor(s, records, name, cells);
    assert forall k :: 0 <= k < |cells| ==> row[k] == PairAt(s, records, name, cells[k]) && cells[k] in cells;
  }

  /** The subject passes against the competitor at the cell. */
  predicate PassesAt(s: Suite, records: seq<Record>, competitor: string, cell: Cell)
    requires HasSubject(s.targets)
  {
    PairPasses(
      LimitsOf(s.gates),
      Group(records, (SubjectOf(s.targets).name, Slug(cell))), Group(records, (competitor, Slug(cell))))
  }

  ghost predicate EveryPairPasses(s: Suite, records: seq<Record>)
    requires HasSubject(s.targets)
  {
    forall t: Target, cell: Cell ::
      t in s.targets && t.role.Competitor? && InMatrix(s.workload, cell) ==> PassesAt(s, records, t.name, cell)
  }

  lemma PairVerdict(s: Suite, records: seq<Record>, competitor: string, cell: Cell)
    requires HasSubject(s.targets)
    ensures PairAt(s, records, competitor, cell).verdict == Pass <==> PassesAt(s, records, competitor, cell)
    ensures cell in CellsOf(s.workload) <==> InMatrix(s.workload, cell)
  {
    PassIffPair(
      LimitsOf(s.gates), cell, competitor,
      Group(records, (SubjectOf(s.targets).name, Slug(cell))), Group(records, (competitor, Slug(cell))));
    MatrixMembers(s.workload.operations, s.workload.payloadSizes, s.workload.concurrency, cell);
  }

  lemma ComparedPair(s: Suite, records: seq<Record>, c: Comparison) returns (i: nat, cell: Cell)
    requires HasSubject(s.targets) && c in Comparisons(s, records)
    ensures i < |s.targets| && s.targets[i].role.Competitor? && cell in CellsOf(s.workload)
    ensures c == PairAt(s, records, s.targets[i].name, cell)
  {
    var rows := Rows(s, records, s.targets);
    FlattenMembers(rows, c);
    i :| 0 <= i < |rows| && c in rows[i];
    ForTargetMembers(s, records, i, c);
    cell :| cell in CellsOf(s.workload) && c == PairAt(s, records, s.targets[i].name, cell);
  }

  lemma PairCompared(s: Suite, records: seq<Record>, t: Target, cell: Cell)
    requires HasSubject(s.targets) && t in s.targets && t.role.Competitor? && InMatrix(s.workload, cell)
    ensures PairAt(s, records, t.name, cell) in Comparisons(s, records)
  {
    var i :| 0 <= i < |s.targets| && s.targets[i] == t;
    var c, rows := PairAt(s, records, t.name, cell), Rows(s, records, s.targets);
    MatrixMembers(s.workload.operations, s.workload.payloadSizes, s.workload.concurrency, cell);
    ForTargetMembers(s, records, i, c);
    assert c in rows[i];
    FlattenMembers(rows, c);
  }

  lemma AllPassIff(s: Suite, records: seq<Record>)
    requires HasSubject(s.targets)
    ensures (forall c :: c in Comparisons(s, records) ==> c.verdict == Pass) <==> EveryPairPasses(s, records)
  {
    if EveryPairPasses(s, records) {
      forall c | c in Comparisons(s, records)
        ensures c.verdict == Pass
      {
        var i, cell := ComparedPair(s, records, c);
        PairVerdict(s, records, s.targets[i].name, cell);
        assert s.targets[i] in s.targets;
      }
    } else {
      var t: Target, cell: Cell :|
        t in s.targets && t.role.Competitor? && InMatrix(s.workload, cell) && !PassesAt(s, records, t.name, cell);
      PairVerdict(s, records, t.name, cell);
      PairCompared(s, records, t, cell);
    }
  }

  /** A report passes if and only if its gates are informational or every competitor passes at every cell. */
  lemma SuitePasses(s: Suite, records: seq<Record>)
    requires HasSubject(s.targets) && ReportOf(s, records).Ok?
    ensures ReportOf(s, records).value.passed <==> !s.gates.required || EveryPairPasses(s, records)
  {
    AllPassIff(s, records);
  }

  /** A validated suite with required gates always gets a report. */
  lemma RequiredSuiteReports(s: Suite, records: seq<Record>)
    requires Valid(s) && s.gates.required
    ensures HasSubject(s.targets) && ReportOf(s, records).Ok?
  {
    ValidHasSubject(s);
    var t :| t in s.targets && t.role.Competitor?;
    PairCompared(
      s, records, t, Cell(s.workload.operations[0], s.workload.payloadSizes[0], s.workload.concurrency[0]));
  }
}
