/** Parity reports: repetitions are aggregated per target and cell, the subject is gated against every competitor. */
module Parity {
  import opened Samples
  import opened Suites

  datatype Record = Record(target: string, cell: Cell, ops: real, p99: real, failureRate: real, audit: string)

  type Key = (string, string)

  function KeyOf(r: Record): Key { (r.target, Slug(r.cell)) }

  // ---- The records behind one aggregate ----

  function Group(records: seq<Record>, key: Key): seq<Record> {
    if records == [] then []
    else
      var last := records[|records| - 1];
      Group(records[..|records| - 1], key) + if KeyOf(last) == key then [last] else []
  }

  lemma {:induction false} GroupCount(records: seq<Record>, key: Key, r: Record)
    ensures multiset(Group(records, key))[r] == if KeyOf(r) == key then multiset(records)[r] else 0
  {
    if records != [] {
      var last := |records| - 1;
      GroupCount(records[..last], key, r);
      AppendCount(records[..last], records[last], r);
      AppendCount(Group(records[..last], key), records[last], r);
      assert records == records[..last] + [records[last]];
    }
  }

  /** Slugs are injective, so an aggregate holds the records of one target and one cell and no others. */
  lemma GroupIsCell(records: seq<Record>, target: string, cell: Cell, r: Record)
    ensures r in Group(records, (target, Slug(cell))) <==> r in records && r.target == target && r.cell == cell
  {
    GroupCount(records, (target, Slug(cell)), r);
    assert r in records <==> multiset(records)[r] > 0;
    assert r in Group(records, (target, Slug(cell))) <==> multiset(Group(records, (target, Slug(cell))))[r] > 0;
    if Slug(r.cell) == Slug(cell) {
      SlugInjective(r.cell, cell);
    }
  }

  datatype Metric = Throughput | P99 | FailureRate

  function Read(m: Metric, r: Record): real {
    match m
    case Throughput => r.ops
    case P99 => r.p99
    case FailureRate => r.failureRate
  }

  function Column(m: Metric, s: seq<Record>): (c: seq<real>)
    ensures |c| == |s|
  {
    seq(|s|, i requires 0 <= i < |s| => Read(m, s[i]))
  }

  lemma ColumnJoin(m: Metric, a: seq<Record>, b: seq<Record>)
    ensures Column(m, a + b) == Column(m, a) + Column(m, b)
  {
  }

  lemma Without(t: seq<Record>, i: nat)
    requires i < |t|
    ensures t == t[..i] + [t[i]] + t[i + 1..]
    ensures multiset(t[..i] + t[i + 1..]) == multiset(t) - multiset{t[i]}
  {
    assert t == t[..i] + [t[i]] + t[i + 1..];
    assert multiset(t) == multiset(t[..i]) + multiset{t[i]} + multiset(t[i + 1..]);
  }

  lemma ColumnWithout(m: Metric, t: seq<Record>, i: nat)
    requires i < |t|
    ensures multiset(Column(m, t)) == multiset(Column(m, t[..i] + t[i + 1..])) + multiset{Read(m, t[i])}
  {
    Without(t, i);
    ColumnJoin(m, t[..i], t[i + 1..]);
    ColumnJoin(m, t[..i] + [t[i]], t[i + 1..]);
    ColumnJoin(m, t[..i], [t[i]]);
    assert Column(m, [t[i]]) == [Read(m, t[i])];
  }

  lemma {:induction false} ColumnPermuted(m: Metric, s: seq<Record>, t: seq<Record>)
    requires multiset(s) == multiset(t)
    ensures multiset(Column(m, s)) == multiset(Column(m, t))
  {
    if s == [] {
      assert |multiset(t)| == 0;
    } else {
      assert s[0] in multiset(t);
      var i :| 0 <= i < |t| && t[i] == s[0];
      Without(s, 0);
      Without(t, i);
      ColumnPermuted(m, s[..0] + s[1..], t[..i] + t[i + 1..]);
      ColumnWithout(m, s, 0);
      ColumnWithout(m, t, i);
    }
  }

  // ---- Aggregates ----

  datatype Aggregate = Aggregate(ops: real, p99: real, failureRate: real, audit: string)

  /** The first non-empty outcome, unless some repetition failed. */
  function AuditOf(group: seq<Record>): string {
    if group == [] then ""
    else AuditAfter(AuditOf(group[..|group| - 1]), group[|group| - 1].audit)
  }

  function AuditAfter(before: string, audit: string): string {
    if audit == "failed" then "failed" else if before == "" then audit else before
  }

  predicate AnyFailed(group: seq<Record>) { exists r :: r in group && r.audit == "failed" }

  lemma {:induction false} AuditFailedIff(group: seq<Record>)
    ensures AuditOf(group) == "failed" <==> AnyFailed(group)
  {
    if group != [] {
      var last := |group| - 1;
      AuditFailedIff(group[..last]);
      assert group == group[..last] + [group[last]];
    }
  }

  function Summary(group: seq<Record>): Aggregate
    requires group != []
  {
    Aggregate(
      MedianOf(Column(Throughput, group)), MedianOf(Column(P99, group)), WorstRate(Column(FailureRate, group)),
      AuditOf(group))
  }

  datatype AggregateSamples = AggregateSamples(ops: seq<real>, p99: seq<real>, failureRates: seq<real>, audit: string)

  function SamplesOf(group: seq<Record>): AggregateSamples {
    AggregateSamples(Column(Throughput, group), Column(P99, group), Column(FailureRate, group), AuditOf(group))
  }

  function Push(s: AggregateSamples, r: Record): AggregateSamples {
    AggregateSamples(s.ops + [r.ops], s.p99 + [r.p99], s.failureRates + [r.failureRate], AuditAfter(s.audit, r.audit))
  }

  lemma PushSamples(group: seq<Record>, r: Record)
    ensures SamplesOf(group + [r]) == Push(SamplesOf(group), r)
  {
    assert (group + [r])[..|group|] == group;
    forall m: Metric
      ensures Column(m, group + [r]) == Column(m, group) + [Read(m, r)]
    {
      ColumnJoin(m, group, [r]);
    }
  }

  lemma GroupStep(records: seq<Record>, i: nat, key: Key)
    requires i < |records|
    ensures Group(records[..i + 1], key)
         == Group(records[..i], key) + if KeyOf(records[i]) == key then [records[i]] else []
  {
    assert records[..i + 1][..i] == records[..i];
  }

  ghost predicate GroupedAt(grouped: map<Key, AggregateSamples>, records: seq<Record>, key: Key) {
    && (key in grouped <==> Group(records, key) != [])
    && (key in grouped ==> grouped[key] == SamplesOf(Group(records, key)))
  }

  function Added(grouped: map<Key, AggregateSamples>, r: Record): map<Key, AggregateSamples> {
    var entry := if KeyOf(r) in grouped then grouped[KeyOf(r)] else AggregateSamples([], [], [], "");
    grouped[KeyOf(r) := Push(entry, r)]
  }

  lemma GroupedStep(grouped: map<Key, AggregateSamples>, records: seq<Record>, i: nat, key: Key)
    requires i < |records| && GroupedAt(grouped, records[..i], key)
    ensures GroupedAt(Added(grouped, records[i]), records[..i + 1], key)
  {
    var r, g := records[i], Group(records[..i], key);
    GroupStep(records, i, key);
    var after := Added(grouped, r);
    if KeyOf(r) == key {
      PushSamples(g, r);
      assert SamplesOf([]) == AggregateSamples([], [], [], "");
      var entry := if key in grouped then grouped[key] else AggregateSamples([], [], [], "");
      assert entry == SamplesOf(g);
      assert after[key] == Push(entry, r);
      assert Group(records[..i + 1], key) == g + [r];
    } else {
      assert key in after <==> key in grouped;
      assert Group(records[..i + 1], key) == g;
    }
  }

  method GroupRecords(records: seq<Record>) returns (grouped: map<Key, AggregateSamples>)
    ensures forall key :: GroupedAt(grouped, records, key)
  {
    grouped := map[];
    ghost var done: seq<Record> := [];
    for i := 0 to |records|
      invariant done == records[..i]
      invariant forall key :: GroupedAt(grouped, done, key)
    {
      ghost var before, shorter := grouped, done;
      grouped := Added(grouped, records[i]);
      done := records[..i + 1];
      forall key: Key
        ensures GroupedAt(grouped, done, key)
      {
        assert GroupedAt(before, shorter, key);
        GroupedStep(before, records, i, key);
      }
    }
    assert records[..|records|] == records;
  }

  method MedianOfValues(values: seq<real>) returns (m: real)
    requires values != []
    ensures m == MedianOf(values)
  {
    var a := new real[|values|](i requires 0 <= i < |values| => values[i]);
    assert a[..] == values;
    var median := Median(a);
    m := median.value;
  }

  method WorstRateOf(rates: seq<real>) returns (worst: real)
    ensures worst == WorstRate(rates)
  {
    worst := 0.0;
    for i := 0 to |rates|
      invariant worst == WorstRate(rates[..i])
    {
      worst := if worst < rates[i] then rates[i] else worst;
      assert rates[..i + 1][..i] == rates[..i];
    }
    assert rates[..|rates|] == rates;
  }

  predicate Summarizes(a: Aggregate, records: seq<Record>, key: Key) {
    Group(records, key) != [] && a == Summary(Group(records, key))
  }

  ghost predicate AggregatedAt(agg: map<Key, Aggregate>, records: seq<Record>, key: Key) {
    if key in agg then Summarizes(agg[key], records, key) else Group(records, key) == []
  }

  method Summarize(s: AggregateSamples, ghost group: seq<Record>) returns (a: Aggregate)
    requires group != [] && s == SamplesOf(group)
    ensures a == Summary(group)
  {
    var ops := MedianOfValues(s.ops);
    var p99 := MedianOfValues(s.p99);
    var worst := WorstRateOf(s.failureRates);
    a := Aggregate(ops, p99, worst, s.audit);
  }

  /** Every target and cell with a record gets its medians, worst rate and audit outcome; no other key appears. */
  method AggregateRecords(records: seq<Record>) returns (agg: map<Key, Aggregate>)
    ensures forall key :: AggregatedAt(agg, records, key)
  {
    var grouped := GroupRecords(records);
    var keys := grouped.Keys;
    agg := map[];
    while keys != {}
      invariant keys <= grouped.Keys && agg.Keys == grouped.Keys - keys
      invariant forall key :: key in agg ==> Summarizes(agg[key], records, key)
      decreases |keys|
    {
      var key :| key in keys;
      assert GroupedAt(grouped, records, key);
      var a := Summarize(grouped[key], Group(records, key));
      agg := agg[key := a];
      keys := keys - {key};
    }
    forall key: Key
      ensures AggregatedAt(agg, records, key)
    {
      assert GroupedAt(grouped, records, key);
    }
  }
}
