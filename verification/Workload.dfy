/** The run of a cache-fill workload: each query looks up the objects it refers to and reads its blocks, except those
    the simulated client cache already holds. Which requests succeed, and in which order they complete, is arbitrary. */
module Workload {
  import opened Arithmetic
  import opened CacheFill
  import opened Common
  import opened Dataset

  datatype Scenario = IndependentCold | WorkloadCacheFill | DiagnosticCold | DiagnosticWarm

  predicate SimulatedCache(s: Scenario) { s.IndependentCold? || s.WorkloadCacheFill? }

  /** Whether query q's fetch of a block ends in success. */
  type Outcomes = (nat, BlockId) -> bool

  /** `headed(q, o)`: whether query q's lookup of object o ends in success. */
  datatype Workload = Workload(
    scenario: Scenario, queries: seq<seq<BlockId>>, headed: (nat, nat) -> bool, fetched: Outcomes)

  // ---- Sublists ----

  function KeepIn(blocks: seq<BlockId>, s: set<BlockId>): seq<BlockId> {
    if blocks == [] then []
    else KeepIn(blocks[..|blocks| - 1], s) + if blocks[|blocks| - 1] in s then [blocks[|blocks| - 1]] else []
  }

  function KeepOut(blocks: seq<BlockId>, s: set<BlockId>): seq<BlockId> {
    if blocks == [] then []
    else KeepOut(blocks[..|blocks| - 1], s) + if blocks[|blocks| - 1] in s then [] else [blocks[|blocks| - 1]]
  }

  lemma {:induction false} KeepPartition(blocks: seq<BlockId>, s: set<BlockId>)
    ensures |KeepIn(blocks, s)| + |KeepOut(blocks, s)| == |blocks|
    ensures forall b :: b in KeepIn(blocks, s) <==> b in blocks && b in s
    ensures forall b :: b in KeepOut(blocks, s) <==> b in blocks && b !in s
  {
    if blocks != [] {
      var n := |blocks| - 1;
      KeepPartition(blocks[..n], s);
      assert blocks == blocks[..n] + [blocks[n]];
    }
  }

  lemma {:induction false} KeepInCounts(blocks: seq<BlockId>, s: set<BlockId>, b: BlockId)
    ensures multiset(KeepIn(blocks, s))[b] == if b in s then multiset(blocks)[b] else 0
  {
    if blocks != [] {
      var n := |blocks| - 1;
      KeepInCounts(blocks[..n], s, b);
      assert blocks == blocks[..n] + [blocks[n]];
    }
  }

  /** Counting does not depend on the order of completion. */
  lemma KeepInPermutation(a: seq<BlockId>, b: seq<BlockId>, s: set<BlockId>)
    requires multiset(a) == multiset(b)
    ensures multiset(KeepIn(a, s)) == multiset(KeepIn(b, s))
    ensures |KeepIn(a, s)| == |KeepIn(b, s)| && Elements(KeepIn(a, s)) == Elements(KeepIn(b, s))
  {
    forall x
      ensures multiset(KeepIn(a, s))[x] == multiset(KeepIn(b, s))[x]
    {
      KeepInCounts(a, s, x);
      KeepInCounts(b, s, x);
    }
    assert multiset(KeepIn(a, s)) == multiset(KeepIn(b, s));
    forall x
      ensures x in KeepIn(a, s) <==> x in KeepIn(b, s)
    {
      assert x in KeepIn(a, s) <==> x in multiset(KeepIn(a, s));
      assert x in KeepIn(b, s) <==> x in multiset(KeepIn(b, s));
    }
    assert |KeepIn(a, s)| == |multiset(KeepIn(a, s))|;
    assert |KeepIn(b, s)| == |multiset(KeepIn(b, s))|;
  }

  lemma {:induction false} KeepDistinct(blocks: seq<BlockId>, s: set<BlockId>)
    requires Distinct(blocks)
    ensures Distinct(KeepIn(blocks, s)) && Distinct(KeepOut(blocks, s))
  {
    if blocks != [] {
      var n := |blocks| - 1;
      KeepDistinct(blocks[..n], s);
      KeepPartition(blocks[..n], s);
      assert forall b :: b in blocks[..n] ==> b != blocks[n];
    }
  }

  lemma {:induction false} KeepAll(blocks: seq<BlockId>, s: set<BlockId>)
    requires forall b :: b in blocks ==> b in s
    ensures KeepIn(blocks, s) == blocks
  {
    if blocks != [] {
      var n := |blocks| - 1;
      assert blocks == blocks[..n] + [blocks[n]];
      KeepAll(blocks[..n], s);
    }
  }

  lemma {:induction false} KeepNone(blocks: seq<BlockId>, s: set<BlockId>)
    requires forall b :: b in blocks ==> b !in s
    ensures KeepIn(blocks, s) == [] && KeepOut(blocks, s) == blocks
  {
    if blocks != [] {
      var n := |blocks| - 1;
      assert blocks == blocks[..n] + [blocks[n]];
      KeepNone(blocks[..n], s);
    }
  }

  // ---- What the run should do, query by query ----

  /** The cached blocks that count: the diagnostic scenarios ignore the cache. */
  function Visible(s: Scenario, cache: set<BlockId>): set<BlockId> { if SimulatedCache(s) then cache else {} }

  function Good(w: Workload, q: nat): set<BlockId>
    requires q < |w.queries|
  {
    set b | b in w.queries[q] && w.fetched(q, b)
  }

  /** The cache that query `q` starts with: only the workload scenario carries it over. */
  function CacheBefore(w: Workload, q: nat): set<BlockId>
    requires q <= |w.queries|
    decreases q, 0
  {
    if q == 0 || !w.scenario.WorkloadCacheFill? then {}
    else CacheBefore(w, q - 1) + Elements(Successes(w, q - 1))
  }

  function Skips(w: Workload, q: nat): seq<BlockId>
    requires q < |w.queries|
    decreases q, 1
  {
    KeepIn(w.queries[q], Visible(w.scenario, CacheBefore(w, q)))
  }

  function Fetches(w: Workload, q: nat): seq<BlockId>
    requires q < |w.queries|
    decreases q, 1
  {
    KeepOut(w.queries[q], Visible(w.scenario, CacheBefore(w, q)))
  }

  /** The reads of query `q` that succeed. */
  function Successes(w: Workload, q: nat): seq<BlockId>
    requires q < |w.queries|
    decreases q, 2
  {
    KeepIn(Fetches(w, q), Good(w, q))
  }

  function Referenced(blocks: seq<BlockId>): set<nat> { set b | b in blocks :: b.obj }

  /** The objects query `q` need not look up. */
  function ObjectsBefore(w: Workload, q: nat): set<nat>
    requires q <= |w.queries|
    decreases q, 0
  {
    if q == 0 || !w.scenario.WorkloadCacheFill? then {} else ObjectsBefore(w, q - 1) + Found(w, q - 1)
  }

  function Lookups(w: Workload, q: nat): set<nat>
    requires q < |w.queries|
    decreases q, 1
  {
    Referenced(w.queries[q]) - ObjectsBefore(w, q)
  }

  function Found(w: Workload, q: nat): set<nat>
    requires q < |w.queries|
    decreases q, 2
  {
    set o | o in Lookups(w, q) && w.headed(q, o)
  }

  function Missed(w: Workload, q: nat): set<nat>
    requires q < |w.queries|
  {
    Lookups(w, q) - Found(w, q)
  }

  datatype Totals = Totals(selected: nat, requested: nat, suppressed: nat, successes: nat)

  function Plus(a: Totals, b: Totals): Totals {
    Totals(a.selected + b.selected, a.requested + b.requested, a.suppressed + b.suppressed, a.successes + b.successes)
  }

  function QueryTotals(w: Workload, q: nat): Totals
    requires q < |w.queries|
  {
    Totals(|w.queries[q]|, |Fetches(w, q)|, |Skips(w, q)|, |Successes(w, q)|)
  }

  function TotalsOf(w: Workload, n: nat): Totals
    requires n <= |w.queries|
  {
    if n == 0 then Totals(0, 0, 0, 0) else Plus(TotalsOf(w, n - 1), QueryTotals(w, n - 1))
  }

  /** The failed lookups of the first `n` queries. */
  function LookupErrors(w: Workload, n: nat): nat
    requires n <= |w.queries|
  {
    if n == 0 then 0 else LookupErrors(w, n - 1) + |Missed(w, n - 1)|
  }

  // ---- Laws of every run ----

  lemma QueryConserved(w: Workload, q: nat)
    requires q < |w.queries|
    ensures var t := QueryTotals(w, q); t.requested + t.suppressed == t.selected && t.successes <= t.requested
  {
    KeepPartition(w.queries[q], Visible(w.scenario, CacheBefore(w, q)));
    KeepPartition(Fetches(w, q), Good(w, q));
  }

  /** In every scenario each selected block is either requested or suppressed, and only requested ones succeed. */
  lemma {:induction false} ReadsConserved(w: Workload, n: nat)
    requires n <= |w.queries|
    ensures var t := TotalsOf(w, n); t.requested + t.suppressed == t.selected && t.successes <= t.requested
  {
    if n > 0 {
      ReadsConserved(w, n - 1);
      QueryConserved(w, n - 1);
    }
  }

  /** Only the workload scenario suppresses reads. */
  lemma {:induction false} OthersSuppressNothing(w: Workload, n: nat)
    requires n <= |w.queries| && !w.scenario.WorkloadCacheFill?
    ensures TotalsOf(w, n).suppressed == 0
  {
    if n > 0 {
      OthersSuppressNothing(w, n - 1);
      assert CacheBefore(w, n - 1) == {};
      KeepNone(w.queries[n - 1], {});
    }
  }

  predicate Succeeded(w: Workload, q: nat, b: BlockId) { q < |w.queries| && b in Successes(w, q) }

  lemma {:induction false} CachedExactlyAfterSuccess(w: Workload, q: nat, b: BlockId)
    requires q <= |w.queries| && w.scenario.WorkloadCacheFill?
    ensures b in CacheBefore(w, q) <==> exists p :: 0 <= p < q && Succeeded(w, p, b)
  {
    if q > 0 {
      CachedExactlyAfterSuccess(w, q - 1, b);
      assert b in CacheBefore(w, q) <==> b in CacheBefore(w, q - 1) || Succeeded(w, q - 1, b);
    }
  }

  /** In the workload scenario a read is suppressed exactly when an earlier query read its block successfully. */
  lemma SuppressedExactlyAfterSuccess(w: Workload, q: nat, b: BlockId)
    requires q < |w.queries| && w.scenario.WorkloadCacheFill?
    ensures b in Skips(w, q) <==> b in w.queries[q] && exists p :: 0 <= p < q && Succeeded(w, p, b)
    ensures b in Fetches(w, q) <==> b in w.queries[q] && b !in Skips(w, q)
  {
    CachedExactlyAfterSuccess(w, q, b);
    KeepPartition(w.queries[q], CacheBefore(w, q));
  }

  /** No block is read successfully by two queries. */
  lemma SuccessAtMostOnce(w: Workload, p: nat, q: nat, b: BlockId)
    requires p < q < |w.queries| && w.scenario.WorkloadCacheFill? && Succeeded(w, p, b)
    ensures b !in Fetches(w, q) && !Succeeded(w, q, b)
  {
    SuppressedExactlyAfterSuccess(w, q, b);
    KeepPartition(Fetches(w, q), Good(w, q));
  }

  /** And no object is looked up again after a lookup of it succeeded. */
  lemma {:induction false} FoundAtMostOnce(w: Workload, p: nat, q: nat, o: nat)
    requires p < q < |w.queries| && w.scenario.WorkloadCacheFill? && o in Found(w, p)
    ensures o in ObjectsBefore(w, q) && o !in Lookups(w, q)
    decreases q
  {
    if p < q - 1 {
      FoundAtMostOnce(w, p, q - 1, o);
    }
  }

  lemma {:induction false} ElementsSizeIff(s: seq<BlockId>)
    ensures |Elements(s)| <= |s| && (|Elements(s)| == |s| <==> Distinct(s))
  {
    if s != [] {
      var front, last := Front(s), Last(s);
      ElementsSizeIff(front);
      assert s == front + [last];
      assert Elements(s) == Elements(front) + {last};
      assert last in front <==> exists i :: 0 <= i < |front| && s[i] == last;
    }
  }

  lemma CacheGrows(w: Workload, q: nat)
    requires q < |w.queries| && w.scenario.WorkloadCacheFill?
    ensures |CacheBefore(w, q + 1)| == |CacheBefore(w, q)| + |Elements(Successes(w, q))|
  {
    KeepPartition(w.queries[q], CacheBefore(w, q));
    KeepPartition(Fetches(w, q), Good(w, q));
    assert CacheBefore(w, q) !! Elements(Successes(w, q));
  }

  predicate RepeatFree(w: Workload, q: nat)
    requires q < |w.queries|
  {
    |Elements(Successes(w, q))| == |Successes(w, q)|
  }

  ghost predicate NoRepeatedSuccess(w: Workload, n: nat)
    requires n <= |w.queries|
  {
    forall q :: 0 <= q < n ==> RepeatFree(w, q)
  }

  lemma SuccessStep(w: Workload, q: nat)
    requires q < |w.queries| && w.scenario.WorkloadCacheFill?
    ensures TotalsOf(w, q + 1).successes - TotalsOf(w, q).successes >= |CacheBefore(w, q + 1)| - |CacheBefore(w, q)|
    ensures TotalsOf(w, q + 1).successes - TotalsOf(w, q).successes == |CacheBefore(w, q + 1)| - |CacheBefore(w, q)|
       <==> RepeatFree(w, q)
  {
    CacheGrows(w, q);
    ElementsSizeIff(Successes(w, q));
  }

  lemma NoRepeatedStep(w: Workload, n: nat)
    requires n < |w.queries|
    ensures NoRepeatedSuccess(w, n + 1) <==> NoRepeatedSuccess(w, n) && RepeatFree(w, n)
  {
  }

  ghost predicate SuccessesMatchCache(w: Workload, n: nat)
    requires n <= |w.queries|
  {
    && TotalsOf(w, n).successes >= |CacheBefore(w, n)|
    && (TotalsOf(w, n).successes == |CacheBefore(w, n)| <==> NoRepeatedSuccess(w, n))
  }

  lemma MatchStep(w: Workload, n: nat)
    requires n < |w.queries| && w.scenario.WorkloadCacheFill? && SuccessesMatchCache(w, n)
    ensures SuccessesMatchCache(w, n + 1)
  {
    SuccessStep(w, n);
    NoRepeatedStep(w, n);
  }

  /** There are at least as many successful reads as cached blocks, and as many exactly when no query succeeds twice on
      one block. */
  lemma {:induction false} SuccessesCoverCache(w: Workload, n: nat)
    requires n <= |w.queries| && w.scenario.WorkloadCacheFill?
    ensures SuccessesMatchCache(w, n)
  {
    if n == 0 {
      MatchNone(w);
    } else {
      SuccessesCoverCache(w, n - 1);
      MatchStep(w, n - 1);
    }
  }

  lemma MatchNone(w: Workload)
    ensures SuccessesMatchCache(w, 0)
  {
  }

  lemma DistinctQueryRepeatFree(w: Workload, q: nat)
    requires q < |w.queries| && Distinct(w.queries[q])
    ensures RepeatFree(w, q)
  {
    KeepDistinct(w.queries[q], Visible(w.scenario, CacheBefore(w, q)));
    KeepDistinct(Fetches(w, q), Good(w, q));
    ElementsSizeIff(Successes(w, q));
  }

  /** The outcomes in which only query `q` succeeds, and on everything. */
  function OnlyAt(q: nat): Outcomes { (p, b) => p == q }

  lemma {:induction false} NothingBefore(w: Workload, q: nat, k: nat)
    requires k <= q < |w.queries| && w.fetched == OnlyAt(q)
    ensures CacheBefore(w, k) == {}
  {
    if k > 0 && w.scenario.WorkloadCacheFill? {
      NothingBefore(w, q, k - 1);
      KeepNone(Fetches(w, k - 1), Good(w, k - 1));
    }
  }

  /** So that query reads all it lists. */
  lemma AllReadAt(w: Workload, q: nat)
    requires q < |w.queries| && w.fetched == OnlyAt(q)
    ensures Successes(w, q) == w.queries[q]
  {
    NothingBefore(w, q, q);
    KeepNone(w.queries[q], Visible(w.scenario, CacheBefore(w, q)));
    KeepAll(w.queries[q], Good(w, q));
  }

  /** After the whole workload, the successful reads are as many as the cached blocks. */
  predicate SuccessesAreCached(w: Workload) {
    TotalsOf(w, |w.queries|).successes == |CacheBefore(w, |w.queries|)|
  }

  /** Whatever the outcomes, successes equal cached blocks, if and only if no query lists a block twice. */
  lemma SuccessesEqualCachedIff(queries: seq<seq<BlockId>>, headed: (nat, nat) -> bool)
    ensures (forall fetched: Outcomes :: SuccessesAreCached(Workload(WorkloadCacheFill, queries, headed, fetched)))
            <==> forall q :: 0 <= q < |queries| ==> Distinct(queries[q])
  {
    if forall q :: 0 <= q < |queries| ==> Distinct(queries[q]) {
      forall fetched: Outcomes
        ensures SuccessesAreCached(Workload(WorkloadCacheFill, queries, headed, fetched))
      {
        DistinctQueriesCached(Workload(WorkloadCacheFill, queries, headed, fetched));
      }
    } else {
      var q :| 0 <= q < |queries| && !Distinct(queries[q]);
      RepeatedBlockBreaks(Workload(WorkloadCacheFill, queries, headed, OnlyAt(q)), q);
    }
  }

  lemma DistinctQueriesCached(w: Workload)
    requires w.scenario.WorkloadCacheFill? && forall q :: 0 <= q < |w.queries| ==> Distinct(w.queries[q])
    ensures SuccessesAreCached(w)
  {
    SuccessesCoverCache(w, |w.queries|);
    forall q | 0 <= q < |w.queries|
      ensures RepeatFree(w, q)
    {
      DistinctQueryRepeatFree(w, q);
    }
  }

  /** A query that lists a block twice and alone succeeds counts that block twice and caches it once. */
  lemma RepeatedBlockBreaks(w: Workload, q: nat)
    requires q < |w.queries| && !Distinct(w.queries[q]) && w.scenario.WorkloadCacheFill? && w.fetched == OnlyAt(q)
    ensures !SuccessesAreCached(w)
  {
    AllReadAt(w, q);
    ElementsSizeIff(w.queries[q]);
    assert !RepeatFree(w, q);
    SuccessesCoverCache(w, |w.queries|);
  }

  // ---- Logical bytes ----

  /** Logical size of a block: the last one of an object may be short. */
  function BlockBytes(sizes: seq<nat>, b: BlockId): nat {
    if b.obj < |sizes| then Min(SatSub(sizes[b.obj], b.block * BLOCK_BYTES), BLOCK_BYTES) else 0
  }

  /** The block starts within its object. */
  predicate InObject(sizes: seq<nat>, b: BlockId) { b.obj < |sizes| && b.block * BLOCK_BYTES < sizes[b.obj] }

  predicate Full(sizes: seq<nat>, b: BlockId) { b.obj < |sizes| && (b.block + 1) * BLOCK_BYTES <= sizes[b.obj] }

  /** What the report adds for a read; the subtraction cannot underflow. */
  function ReadBytes(sizes: seq<nat>, b: BlockId): (n: nat)
    requires InObject(sizes, b)
    ensures n == BlockBytes(sizes, b)
  {
    Min(sizes[b.obj] - b.block * BLOCK_BYTES, BLOCK_BYTES)
  }

  lemma FullIff(sizes: seq<nat>, b: BlockId)
    ensures BlockBytes(sizes, b) <= BLOCK_BYTES && (BlockBytes(sizes, b) == BLOCK_BYTES <==> Full(sizes, b))
  {
  }

  function Bytes(sizes: seq<nat>, blocks: seq<BlockId>): nat {
    if blocks == [] then 0 else Bytes(sizes, Front(blocks)) + BlockBytes(sizes, Last(blocks))
  }

  predicate AllFull(sizes: seq<nat>, blocks: seq<BlockId>) { forall b :: b in blocks ==> Full(sizes, b) }

  lemma {:induction false} BytesIff(sizes: seq<nat>, blocks: seq<BlockId>)
    ensures Bytes(sizes, blocks) <= |blocks| * BLOCK_BYTES
    ensures Bytes(sizes, blocks) == |blocks| * BLOCK_BYTES <==> AllFull(sizes, blocks)
  {
    if blocks != [] {
      BytesIff(sizes, Front(blocks));
      FullIff(sizes, Last(blocks));
      assert blocks == Front(blocks) + [Last(blocks)];
    }
  }

  lemma {:induction false} BytesJoin(sizes: seq<nat>, a: seq<BlockId>, b: seq<BlockId>)
    ensures Bytes(sizes, a + b) == Bytes(sizes, a) + Bytes(sizes, b)
  {
    if b == [] {
      assert a + b == a;
    } else {
      BytesJoin(sizes, a, Front(b));
      assert Front(a + b) == a + Front(b);
    }
  }

  lemma BytesWithout(sizes: seq<nat>, s: seq<BlockId>, k: nat)
    requires k < |s|
    ensures Bytes(sizes, s) == Bytes(sizes, s[..k] + s[k + 1..]) + BlockBytes(sizes, s[k])
    ensures multiset(s[..k] + s[k + 1..]) == multiset(s) - multiset{s[k]}
  {
    assert s == s[..k] + ([s[k]] + s[k + 1..]);
    BytesJoin(sizes, s[..k], [s[k]] + s[k + 1..]);
    BytesJoin(sizes, [s[k]], s[k + 1..]);
    BytesJoin(sizes, s[..k], s[k + 1..]);
    assert Front([s[k]]) == [];
  }

  lemma {:induction false} BytesPermuted(sizes: seq<nat>, a: seq<BlockId>, b: seq<BlockId>)
    requires multiset(a) == multiset(b)
    ensures Bytes(sizes, a) == Bytes(sizes, b)
    decreases |a|
  {
    if a == [] {
      assert |multiset(b)| == 0;
    } else {
      var k := Find(a[0], b);
      BytesWithout(sizes, a, 0);
      BytesWithout(sizes, b, k);
      BytesPermuted(sizes, a[..0] + a[1..], b[..k] + b[k + 1..]);
    }
  }

  lemma Find(x: BlockId, s: seq<BlockId>) returns (k: nat)
    requires x in multiset(s)
    ensures k < |s| && s[k] == x
  {
    assert x in s;
    k :| 0 <= k < |s| && s[k] == x;
  }

  /** The logical bytes of the first `n` queries. */
  function LogicalBytes(w: Workload, sizes: seq<nat>, n: nat): nat
    requires n <= |w.queries|
  {
    if n == 0 then 0 else LogicalBytes(w, sizes, n - 1) + Bytes(sizes, Successes(w, n - 1))
  }

  predicate FullReads(w: Workload, q: nat, sizes: seq<nat>)
    requires q < |w.queries|
  {
    AllFull(sizes, Successes(w, q))
  }

  lemma WholeSum(a: nat, m: nat, b: nat, n: nat)
    requires a <= m * BLOCK_BYTES && b <= n * BLOCK_BYTES
    ensures a + b <= (m + n) * BLOCK_BYTES
    ensures a + b == (m + n) * BLOCK_BYTES <==> a == m * BLOCK_BYTES && b == n * BLOCK_BYTES
  {
  }

  ghost predicate OnlyFullReads(w: Workload, n: nat, sizes: seq<nat>)
    requires n <= |w.queries|
  {
    forall q :: 0 <= q < n ==> FullReads(w, q, sizes)
  }

  lemma FullReadsStep(w: Workload, n: nat, sizes: seq<nat>)
    requires n < |w.queries|
    ensures OnlyFullReads(w, n + 1, sizes) <==> OnlyFullReads(w, n, sizes) && FullReads(w, n, sizes)
  {
  }

  lemma {:induction false} LogicalBytesIff(w: Workload, sizes: seq<nat>, n: nat)
    requires n <= |w.queries|
    ensures LogicalBytes(w, sizes, n) <= TotalsOf(w, n).successes * BLOCK_BYTES
    ensures LogicalBytes(w, sizes, n) == TotalsOf(w, n).successes * BLOCK_BYTES <==> OnlyFullReads(w, n, sizes)
  {
    if n > 0 {
      var done := Successes(w, n - 1);
      LogicalBytesIff(w, sizes, n - 1);
      BytesIff(sizes, done);
      WholeSum(LogicalBytes(w, sizes, n - 1), TotalsOf(w, n - 1).successes, Bytes(sizes, done), |done|);
      FullReadsStep(w, n - 1, sizes);
    }
  }

  /** After the whole workload, every successful read accounts for a whole block. */
  predicate ReadsAreWhole(w: Workload, sizes: seq<nat>) {
    LogicalBytes(w, sizes, |w.queries|) == TotalsOf(w, |w.queries|).successes * BLOCK_BYTES
  }

  /** Whatever the outcomes, logical bytes are successes times 8 MiB, if and only if every listed block is full. */
  lemma ReadsAreWholeIff(scenario: Scenario, queries: seq<seq<BlockId>>, headed: (nat, nat) -> bool, sizes: seq<nat>)
    ensures (forall fetched: Outcomes :: ReadsAreWhole(Workload(scenario, queries, headed, fetched), sizes))
            <==> forall q :: 0 <= q < |queries| ==> AllFull(sizes, queries[q])
  {
    if forall q :: 0 <= q < |queries| ==> AllFull(sizes, queries[q]) {
      forall fetched: Outcomes
        ensures ReadsAreWhole(Workload(scenario, queries, headed, fetched), sizes)
      {
        FullBlocksRead(Workload(scenario, queries, headed, fetched), sizes);
      }
    } else {
      var q :| 0 <= q < |queries| && !AllFull(sizes, queries[q]);
      ShortBlockBreaks(Workload(scenario, queries, headed, OnlyAt(q)), sizes, q);
    }
  }

  lemma FullBlocksRead(w: Workload, sizes: seq<nat>)
    requires forall q :: 0 <= q < |w.queries| ==> AllFull(sizes, w.queries[q])
    ensures ReadsAreWhole(w, sizes)
  {
    LogicalBytesIff(w, sizes, |w.queries|);
    forall q | 0 <= q < |w.queries|
      ensures FullReads(w, q, sizes)
    {
      KeepPartition(w.queries[q], Visible(w.scenario, CacheBefore(w, q)));
      KeepPartition(Fetches(w, q), Good(w, q));
    }
  }

  /** A query that lists a short block and alone succeeds reads fewer bytes. */
  lemma ShortBlockBreaks(w: Workload, sizes: seq<nat>, q: nat)
    requires q < |w.queries| && !AllFull(sizes, w.queries[q]) && w.fetched == OnlyAt(q)
    ensures !ReadsAreWhole(w, sizes)
  {
    AllReadAt(w, q);
    assert !FullReads(w, q, sizes);
    LogicalBytesIff(w, sizes, |w.queries|);
  }

  // ---- What the benchmark runs ----

  function BlockCounts(sizes: seq<nat>): (counts: seq<nat>)
    ensures |counts| == |sizes|
  {
    seq(|sizes|, i requires 0 <= i < |sizes| => (sizes[i] + BLOCK_BYTES - 1) / BLOCK_BYTES)
  }

  lemma CountedIsFull(sizes: seq<nat>, b: BlockId)
    requires WholeBlocks(sizes) && InDataset(BlockCounts(sizes), b)
    ensures InObject(sizes, b) && Full(sizes, b)
  {
  }

  /** For queries generated over a parsed dataset both laws hold in every run. */
  lemma GeneratedRunsAreExact(w: Workload, sizes: seq<nat>)
    requires WholeBlocks(sizes) && forall q :: 0 <= q < |w.queries| ==> Within(BlockCounts(sizes), w.queries[q])
    ensures ReadsAreWhole(w, sizes) && (w.scenario.WorkloadCacheFill? ==> SuccessesAreCached(w))
  {
    forall q | 0 <= q < |w.queries|
      ensures AllFull(sizes, w.queries[q]) && Distinct(w.queries[q])
    {
      assert Within(BlockCounts(sizes), w.queries[q]);
      forall b | b in w.queries[q]
        ensures Full(sizes, b)
      {
        CountedIsFull(sizes, b);
      }
    }
    FullBlocksRead(w, sizes);
    if w.scenario.WorkloadCacheFill? {
      DistinctQueriesCached(w);
    }
  }

  // ---- The run ----

  /** The outcomes arrive in the order the fetches complete, whichever that is. */
  method Complete(fetches: seq<BlockId>) returns (results: seq<BlockId>)
    ensures multiset(results) == multiset(fetches)
  {
    results := [];
    var waiting := fetches;
    while waiting != []
      invariant multiset(results) + multiset(waiting) == multiset(fetches)
      decreases |waiting|
    {
      var k :| 0 <= k < |waiting|;
      assert waiting == waiting[..k] + [waiting[k]] + waiting[k + 1..];
      results := results + [waiting[k]];
      waiting := waiting[..k] + waiting[k + 1..];
    }
  }

  /** `partition`: the blocks to fetch, and the number of those the cache spares. */
  method Partition(scenario: Scenario, cache: set<BlockId>, blocks: seq<BlockId>)
      returns (fetches: seq<BlockId>, suppressed: nat)
    ensures fetches == KeepOut(blocks, Visible(scenario, cache))
    ensures suppressed == |KeepIn(blocks, Visible(scenario, cache))|
  {
    fetches, suppressed := [], 0;
    for i := 0 to |blocks|
      invariant fetches == KeepOut(blocks[..i], Visible(scenario, cache))
      invariant suppressed == |KeepIn(blocks[..i], Visible(scenario, cache))|
    {
      assert blocks[..i + 1][..i] == blocks[..i];
      if SimulatedCache(scenario) && blocks[i] in cache {
        suppressed := suppressed + 1;
      } else {
        fetches := fetches + [blocks[i]];
      }
    }
    assert blocks[..|blocks|] == blocks;
  }

  /** The result loop: counts, logical bytes, and the blocks to remember, for outcomes in any order. */
  method Tally(results: seq<BlockId>, good: set<BlockId>, sizes: seq<nat>)
      returns (successes: nat, errors: nat, logical: nat, fetched: set<BlockId>)
    requires forall i :: 0 <= i < |results| ==> InObject(sizes, results[i])
    ensures successes == |KeepIn(results, good)| && successes + errors == |results|
    ensures fetched == Elements(KeepIn(results, good))
    ensures logical == Bytes(sizes, KeepIn(results, good))
  {
    successes, errors, logical, fetched := 0, 0, 0, {};
    ghost var kept: seq<BlockId> := [];
    for i := 0 to |results|
      invariant kept == KeepIn(results[..i], good)
      invariant successes == |kept| && successes + errors == i && fetched == Elements(kept)
      invariant logical == Bytes(sizes, kept)
    {
      var block := results[i];
      KeepStep(results, good, i);
      if block in good {
        BytesStep(sizes, kept, block);
        ElementsStep(kept, block);
        successes := successes + 1;
        logical := logical + ReadBytes(sizes, block);
        fetched, kept := fetched + {block}, kept + [block];
      } else {
        errors := errors + 1;
      }
    }
    assert results[..|results|] == results;
  }

  lemma KeepStep(blocks: seq<BlockId>, s: set<BlockId>, i: nat)
    requires i < |blocks|
    ensures KeepIn(blocks[..i + 1], s)
         == if blocks[i] in s then KeepIn(blocks[..i], s) + [blocks[i]] else KeepIn(blocks[..i], s)
  {
    assert blocks[..i + 1][..i] == blocks[..i];
  }

  lemma ElementsStep(blocks: seq<BlockId>, b: BlockId)
    ensures Elements(blocks + [b]) == Elements(blocks) + {b}
  {
  }

  lemma BytesStep(sizes: seq<nat>, blocks: seq<BlockId>, b: BlockId)
    ensures Bytes(sizes, blocks + [b]) == Bytes(sizes, blocks) + BlockBytes(sizes, b)
  {
    assert Front(blocks + [b]) == blocks;
  }

  /** The metadata lookups, in any order. */
  method LookUp(lookups: set<nat>, headed: nat -> bool) returns (found: set<nat>, errors: nat)
    ensures found == (set o | o in lookups && headed(o)) && errors + |found| == |lookups|
  {
    var waiting := lookups;
    found, errors := {}, 0;
    while waiting != {}
      invariant waiting <= lookups && found == set o | o in lookups && o !in waiting && headed(o)
      invariant errors + |found| + |waiting| == |lookups|
      decreases |waiting|
    {
      var o :| o in waiting;
      waiting := waiting - {o};
      if headed(o) {
        found := found + {o};
      } else {
        errors := errors + 1;
      }
    }
  }

  /** The figures after `n` queries. */
  ghost predicate Accounted(w: Workload, n: nat, sizes: seq<nat>, totals: Totals, errors: nat, logicalBytes: nat)
    requires n <= |w.queries|
  {
    && totals == TotalsOf(w, n) && totals.successes + errors == totals.requested + LookupErrors(w, n)
    && logicalBytes == LogicalBytes(w, sizes, n)
  }

  lemma AccountStep(w: Workload, q: nat, sizes: seq<nat>, totals: Totals, errors: nat, logicalBytes: nat,
                    query: Totals, failed: nat, logical: nat)
    requires q < |w.queries| && Accounted(w, q, sizes, totals, errors, logicalBytes)
    requires query == QueryTotals(w, q) && logical == Bytes(sizes, Successes(w, q))
    requires query.successes + failed == query.requested + |Missed(w, q)|
    ensures Accounted(w, q + 1, sizes, Plus(totals, query), errors + failed, logicalBytes + logical)
  {
  }

  /** The client's cache when query `n` starts. */
  ghost predicate Caching(w: Workload, n: nat, cache: set<BlockId>, objects: set<nat>)
    requires n <= |w.queries|
  {
    cache == CacheBefore(w, n) && objects == ObjectsBefore(w, n)
  }

  lemma CachingStep(w: Workload, q: nat, cache: set<BlockId>, objects: set<nat>)
    requires q < |w.queries| && w.scenario.WorkloadCacheFill? && Caching(w, q, cache, objects)
    ensures Caching(w, q + 1, cache + Elements(Successes(w, q)), objects + Found(w, q))
  {
  }

  lemma ColdCaching(w: Workload, q: nat)
    requires q <= |w.queries| && !w.scenario.WorkloadCacheFill?
    ensures Caching(w, q, {}, {})
  {
  }

  /** The query lists only blocks that exist. */
  predicate Listed(w: Workload, sizes: seq<nat>, q: nat)
    requires q < |w.queries|
  {
    forall i :: 0 <= i < |w.queries[q]| ==> InObject(sizes, w.queries[q][i])
  }

  /** The whole workload: the reported figures are those of the specification, and every requested read succeeds or
      is an error, as is every failed lookup. */
  method Execute(w: Workload, sizes: seq<nat>)
      returns (totals: Totals, errors: nat, logicalBytes: nat, cache: set<BlockId>)
    requires forall q :: 0 <= q < |w.queries| ==> Listed(w, sizes, q)
    ensures totals == TotalsOf(w, |w.queries|)
    ensures errors == totals.requested - totals.successes + LookupErrors(w, |w.queries|)
    ensures logicalBytes == LogicalBytes(w, sizes, |w.queries|)
    ensures w.scenario.WorkloadCacheFill? ==> cache == CacheBefore(w, |w.queries|)
  {
    totals, errors, logicalBytes, cache := RunQueries(w, sizes);
  }

  method RunQueries(w: Workload, sizes: seq<nat>)
      returns (totals: Totals, errors: nat, logicalBytes: nat, cache: set<BlockId>)
    requires forall q :: 0 <= q < |w.queries| ==> Listed(w, sizes, q)
    ensures Accounted(w, |w.queries|, sizes, totals, errors, logicalBytes)
    ensures w.scenario.WorkloadCacheFill? ==> Caching(w, |w.queries|, cache, ObjectsBefore(w, |w.queries|))
  {
    var objects: set<nat> := {};
    cache, totals, errors, logicalBytes := {}, Totals(0, 0, 0, 0), 0, 0;
    for q := 0 to |w.queries|
      invariant Accounted(w, q, sizes, totals, errors, logicalBytes)
      invariant w.scenario.WorkloadCacheFill? ==> Caching(w, q, cache, objects)
    {
      totals, errors, logicalBytes, cache, objects :=
        Advance(w, q, sizes, totals, errors, logicalBytes, cache, objects);
    }
  }

  /** One turn of the loop. Only the workload scenario keeps what earlier queries cached. */
  method Advance(w: Workload, q: nat, sizes: seq<nat>, totals: Totals, errors: nat, logicalBytes: nat,
                 cache: set<BlockId>, objects: set<nat>)
      returns (totals': Totals, errors': nat, logicalBytes': nat, cache': set<BlockId>, objects': set<nat>)
    requires q < |w.queries| && Accounted(w, q, sizes, totals, errors, logicalBytes)
    requires Listed(w, sizes, q) && (w.scenario.WorkloadCacheFill? ==> Caching(w, q, cache, objects))
    ensures Accounted(w, q + 1, sizes, totals', errors', logicalBytes')
    ensures w.scenario.WorkloadCacheFill? ==> Caching(w, q + 1, cache', objects')
  {
    cache', objects' := cache, objects;
    if w.scenario.IndependentCold? || !SimulatedCache(w.scenario) {
      ColdCaching(w, q);
      cache', objects' := {}, {};
    } else {
      CachingStep(w, q, cache, objects);
    }
    var query, failed, logical;
    query, failed, logical, cache', objects' := RunQuery(w, q, cache', objects', sizes);
    AccountStep(w, q, sizes, totals, errors, logicalBytes, query, failed, logical);
    totals', errors', logicalBytes' := Plus(totals, query), errors + failed, logicalBytes + logical;
  }

  /** One query of the workload: its lookups, its reads and the cache it leaves. */
  method RunQuery(w: Workload, q: nat, before: set<BlockId>, known: set<nat>, sizes: seq<nat>)
      returns (totals: Totals, errors: nat, logicalBytes: nat, cache: set<BlockId>, objects: set<nat>)
    requires q < |w.queries| && Listed(w, sizes, q) && Caching(w, q, before, known)
    ensures totals == QueryTotals(w, q)
    ensures totals.successes + errors == totals.requested + |Missed(w, q)|
    ensures logicalBytes == Bytes(sizes, Successes(w, q))
    ensures cache == if SimulatedCache(w.scenario) then before + Elements(Successes(w, q)) else before
    ensures objects == known + Found(w, q)
  {
    var found, missing := LookUpQuery(w, q, known);
    var failed, fetched;
    totals, failed, logicalBytes, fetched := FetchQuery(w, q, before, sizes);
    cache := if SimulatedCache(w.scenario) then before + fetched else before;
    objects, errors := known + found, missing + failed;
  }

  method LookUpQuery(w: Workload, q: nat, known: set<nat>) returns (found: set<nat>, missing: nat)
    requires q < |w.queries| && known == ObjectsBefore(w, q)
    ensures found == Found(w, q) && missing == |Missed(w, q)|
  {
    MissedRest(w, q);
    found, missing := LookUp(Referenced(w.queries[q]) - known, (o: nat) => w.headed(q, o));
  }

  method FetchQuery(w: Workload, q: nat, before: set<BlockId>, sizes: seq<nat>)
      returns (totals: Totals, failed: nat, logicalBytes: nat, fetched: set<BlockId>)
    requires q < |w.queries| && Listed(w, sizes, q) && before == CacheBefore(w, q)
    ensures totals == QueryTotals(w, q) && totals.successes + failed == totals.requested
    ensures logicalBytes == Bytes(sizes, Successes(w, q)) && fetched == Elements(Successes(w, q))
  {
    var fetches, suppressed := Partition(w.scenario, before, w.queries[q]);
    assert fetches == Fetches(w, q);
    FetchesInObjects(w, q, sizes);
    var results := Complete(fetches);
    SameBlocks(results, fetches);
    var successes;
    successes, failed, logicalBytes, fetched := Tally(results, Good(w, q), sizes);
    KeepInPermutation(results, fetches, Good(w, q));
    BytesPermuted(sizes, KeepIn(results, Good(w, q)), KeepIn(fetches, Good(w, q)));
    totals := Totals(|w.queries[q]|, |fetches|, suppressed, successes);
  }

  lemma MissedRest(w: Workload, q: nat)
    requires q < |w.queries|
    ensures Found(w, q) == (set o | o in Lookups(w, q) && w.headed(q, o))
    ensures |Lookups(w, q)| == |Found(w, q)| + |Missed(w, q)|
  {
    assert Lookups(w, q) == Found(w, q) + Missed(w, q);
  }

  lemma FetchesInObjects(w: Workload, q: nat, sizes: seq<nat>)
    requires q < |w.queries| && Listed(w, sizes, q)
    ensures forall b :: b in Fetches(w, q) ==> InObject(sizes, b)
  {
    KeepPartition(w.queries[q], Visible(w.scenario, CacheBefore(w, q)));
  }

  lemma SameBlocks(a: seq<BlockId>, b: seq<BlockId>)
    requires multiset(a) == multiset(b)
    ensures |a| == |b| && forall i :: 0 <= i < |a| ==> a[i] in b
  {
    assert |a| == |multiset(a)| && |b| == |multiset(b)|;
    forall i | 0 <= i < |a|
      ensures a[i] in b
    {
      assert a[i] in multiset(b);
    }
  }

  lemma RunLaws(w: Workload, sizes: seq<nat>)
    requires WholeBlocks(sizes) && forall q :: 0 <= q < |w.queries| ==> Within(BlockCounts(sizes), w.queries[q])
    ensures var totals := TotalsOf(w, |w.queries|);
            && totals.requested + totals.suppressed == totals.selected
            && LogicalBytes(w, sizes, |w.queries|) == totals.successes * BLOCK_BYTES
            && (w.scenario.WorkloadCacheFill? ==> totals.successes == |CacheBefore(w, |w.queries|)|)
            && (!w.scenario.WorkloadCacheFill? ==> totals.suppressed == 0)
  {
    GeneratedRunsAreExact(w, sizes);
    ReadsConserved(w, |w.queries|);
    if !w.scenario.WorkloadCacheFill? {
      OthersSuppressNothing(w, |w.queries|);
    }
  }

  /** From the dataset text to the figures: whatever the random draws and the outcomes, every successful read
      accounts for a whole block, and in the workload scenario the successes are the cached blocks. */
  method Benchmark(
      dataset: string, draws: nat -> seq<u64>, queryLimit: nat, scenario: Scenario,
      headed: (nat, nat) -> bool, fetched: Outcomes)
      returns (r: Option<(Totals, nat, set<BlockId>)>)
    ensures r.Some? ==>
              var (totals, logicalBytes, cache) := r.value;
              && totals.requested + totals.suppressed == totals.selected
              && logicalBytes == totals.successes * BLOCK_BYTES
              && (scenario.WorkloadCacheFill? ==> totals.successes == |cache|)
              && (!scenario.WorkloadCacheFill? ==> totals.suppressed == 0)
  {
    var sizes := ParseDataset(dataset);
    if sizes.None? {
      return None;
    }
    CountsPositive(sizes.value);
    var queries := GenerateQueries(BlockCounts(sizes.value), draws);
    if queries.None? {
      return None;
    }
    var limited := queries.value[..Min(queryLimit, |queries.value|)];
    forall q | 0 <= q < |limited|
      ensures Within(BlockCounts(sizes.value), limited[q])
    {
      MixedWithin(BlockCounts(sizes.value), draws, queries.value, q);
    }
    var totals, logicalBytes, cache := Measure(Workload(scenario, limited, headed, fetched), sizes.value);
    r := Some((totals, logicalBytes, cache));
  }

  method Measure(w: Workload, sizes: seq<nat>) returns (totals: Totals, logicalBytes: nat, cache: set<BlockId>)
    requires WholeBlocks(sizes) && forall q :: 0 <= q < |w.queries| ==> Within(BlockCounts(sizes), w.queries[q])
    ensures totals.requested + totals.suppressed == totals.selected
    ensures logicalBytes == totals.successes * BLOCK_BYTES
    ensures w.scenario.WorkloadCacheFill? ==> totals.successes == |cache|
    ensures !w.scenario.WorkloadCacheFill? ==> totals.suppressed == 0
  {
    QueriesInObjects(w, sizes);
    RunLaws(w, sizes);
    var errors;
    totals, errors, logicalBytes, cache := Execute(w, sizes);
  }

  lemma CountsPositive(sizes: seq<nat>)
    requires WholeBlocks(sizes)
    ensures forall i :: 0 <= i < |sizes| ==> BlockCounts(sizes)[i] > 0
  {
  }

  lemma QueriesInObjects(w: Workload, sizes: seq<nat>)
    requires WholeBlocks(sizes) && forall q :: 0 <= q < |w.queries| ==> Within(BlockCounts(sizes), w.queries[q])
    ensures forall q :: 0 <= q < |w.queries| ==> Listed(w, sizes, q)
  {
    forall q | 0 <= q < |w.queries|
      ensures Listed(w, sizes, q)
    {
      assert Within(BlockCounts(sizes), w.queries[q]);
      forall b | b in w.queries[q]
        ensures InObject(sizes, b)
      {
        CountedIsFull(sizes, b);
      }
    }
  }
}
