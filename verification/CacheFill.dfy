/** The cache-fill benchmark: ordered block sets and the generation of its queries. */
module CacheFill {
  import opened Arithmetic
  import opened Common
  import opened Dataset

  // ---- Ordered block sets ----

  predicate BlockLess(a: BlockId, b: BlockId) { a.obj < b.obj || (a.obj == b.obj && a.block < b.block) }

  /** In iteration order of an ordered set: strictly increasing, hence without duplicates. */
  predicate Ascending(s: seq<BlockId>) { forall i, j :: 0 <= i < j < |s| ==> BlockLess(s[i], s[j]) }

  function Elements(s: seq<BlockId>): set<BlockId> { set b | b in s }

  function Insert(s: seq<BlockId>, x: BlockId): seq<BlockId> {
    if s == [] || BlockLess(x, s[0]) then [x] + s
    else if x == s[0] then s
    else [s[0]] + Insert(s[1..], x)
  }

  lemma {:induction false} InsertKeeps(s: seq<BlockId>, x: BlockId)
    requires Ascending(s)
    ensures Ascending(Insert(s, x)) && Elements(Insert(s, x)) == Elements(s) + {x}
    ensures |Insert(s, x)| == |s| + if x in s then 0 else 1
  {
    if s == [] || BlockLess(x, s[0]) {
      assert Elements([x] + s) == Elements(s) + {x};
    } else if x == s[0] {
      assert Elements(s) == Elements(s) + {x};
    } else {
      var rest := Insert(s[1..], x);
      InsertKeeps(s[1..], x);
      assert s == [s[0]] + s[1..];
      forall j | 0 <= j < |rest|
        ensures BlockLess(s[0], rest[j])
      {
        assert rest[j] in Elements(rest);
      }
      assert Elements(s) == {s[0]} + Elements(s[1..]);
      assert Elements([s[0]] + rest) == {s[0]} + Elements(rest);
    }
  }

  // ---- Query generation ----

  /** The number of blocks a query aims for; `draw` is the first random number of the query. */
  function Target(minimum: nat, maximum: nat, draw: u64, total: nat): nat
    requires minimum <= maximum
  {
    Min(minimum + draw % (maximum - minimum + 1), total)
  }

  ghost predicate Within(counts: seq<nat>, blocks: seq<BlockId>) {
    Ascending(blocks) && forall b :: b in blocks ==> InDataset(counts, b)
  }

  function Overlap(target: nat, percent: nat, previous: seq<BlockId>): nat {
    Min(target * percent / 100, |previous|)
  }

  function CyclicAt(previous: seq<BlockId>, cursor: nat, k: nat): (b: BlockId)
    requires previous != []
    ensures b in previous
  {
    previous[(cursor + k) % |previous|]
  }

  /** The `n` blocks found cyclically from `cursor` on. */
  ghost function Cyclic(previous: seq<BlockId>, cursor: nat, n: nat): (s: set<BlockId>)
    requires previous != []
    ensures s <= Elements(previous)
  {
    if n == 0 then {} else Cyclic(previous, cursor, n - 1) + {CyclicAt(previous, cursor, n - 1)}
  }

  lemma CyclicDistinct(cursor: nat, j: nat, k: nat, n: nat)
    requires j < k < n && cursor < n
    ensures (cursor + j) % n != (cursor + k) % n
  {
    Wraps(cursor + j, n);
    Wraps(cursor + k, n);
  }

  lemma Wraps(a: nat, n: nat)
    requires a < n + n
    ensures a % n == if a < n then a else a - n
  {
    if a >= n {
      assert a == 1 * n + (a - n);
    }
  }

  lemma {:induction false} CyclicFresh(previous: seq<BlockId>, cursor: nat, n: nat, k: nat)
    requires Ascending(previous) && n <= k < |previous| && cursor < |previous|
    ensures CyclicAt(previous, cursor, k) !in Cyclic(previous, cursor, n)
  {
    if n > 0 {
      CyclicFresh(previous, cursor, n - 1, k);
      CyclicDistinct(cursor, n - 1, k, |previous|);
    }
  }

  /** Copies `n` different blocks of the previous query, cyclically from a random position. */
  method TakeOverlap(counts: seq<nat>, previous: seq<BlockId>, cursor: nat, n: nat) returns (selected: seq<BlockId>)
    requires Within(counts, previous) && n <= |previous| && cursor < |previous|
    ensures Within(counts, selected) && |selected| == n && Elements(selected) == Cyclic(previous, cursor, n)
  {
    selected := [];
    for offset := 0 to n
      invariant Within(counts, selected) && |selected| == offset
      invariant Elements(selected) == Cyclic(previous, cursor, offset)
    {
      var next := CyclicAt(previous, cursor, offset);
      CyclicFresh(previous, cursor, offset, offset);
      InsertWithin(counts, selected, next);
      selected := Insert(selected, next);
    }
  }

  lemma InsertWithin(counts: seq<nat>, s: seq<BlockId>, x: BlockId)
    requires Within(counts, s) && InDataset(counts, x)
    ensures Within(counts, Insert(s, x)) && Elements(Insert(s, x)) == Elements(s) + {x}
    ensures |Insert(s, x)| == |s| + if x in Elements(s) then 0 else 1
  {
    InsertKeeps(s, x);
    assert forall b :: b in Insert(s, x) <==> b in Elements(Insert(s, x));
  }

  datatype Class = Class(fanout: bool, count: nat, minimum: nat, maximum: nat)

  function Classes(objects: nat): seq<Class> {
    [Class(false, 10, 8, 32), Class(false, 12, 32, 128), Class(false, 12, 128, 512), Class(false, 6, 512, 2048),
     Class(true, 3, objects, objects)]
  }

  const OVERLAP_LEVELS: seq<nat> := [0, 25, 50, 75]

  /** The first draw sizes a query, the second picks where its overlap starts unless there is no previous query. */
  function Spent(previous: seq<BlockId>): nat { if previous == [] then 1 else 2 }

  function QueryTarget(counts: seq<nat>, class_: Class, draws: seq<u64>): nat
    requires class_.minimum <= class_.maximum && |draws| > 0
  {
    Target(class_.minimum, class_.maximum, draws[0], BlocksBefore(counts, |counts|))
  }

  /** The blocks a query takes over from the previous one. */
  ghost function Kept(counts: seq<nat>, class_: Class, percent: nat, previous: seq<BlockId>, draws: seq<u64>)
      : set<BlockId>
    requires class_.minimum <= class_.maximum && |draws| >= Spent(previous)
  {
    if previous == [] then {}
    else Cyclic(previous, draws[1] % |previous|, Overlap(QueryTarget(counts, class_, draws), percent, previous))
  }

  /** The draws suffice: a fanout query needs one more for every object, any other one enough different blocks. */
  ghost predicate Completes(counts: seq<nat>, class_: Class, percent: nat, previous: seq<BlockId>, draws: seq<u64>)
    requires class_.minimum <= class_.maximum && BlocksBefore(counts, |counts|) > 0
  {
    && |draws| >= Spent(previous)
    && var rest := draws[Spent(previous)..];
       if class_.fanout then |rest| >= |counts|
       else |Kept(counts, class_, percent, previous, draws) + Drawn(counts, rest)| >= QueryTarget(counts, class_, draws)
  }

  /** What a finished query holds: different blocks of the dataset. Unless it is a fanout query it has exactly the
      target number of them, and at least the requested overlap with the previous query; a fanout query has exactly
      one block of every object. */
  ghost predicate Shaped(
      counts: seq<nat>, class_: Class, percent: nat, previous: seq<BlockId>, draws: seq<u64>, query: seq<BlockId>)
  {
    && Within(counts, query) && |draws| > 0 && class_.minimum <= class_.maximum
    && if class_.fanout then |query| == |counts| && forall i :: 0 <= i < |counts| ==> query[i].obj == i
       else
         var target := QueryTarget(counts, class_, draws);
         && |query| == target
         && |Elements(query) * Elements(previous)| >= Overlap(target, percent, previous)
  }

  /** One query. `draws` are the random numbers available to it: the fill loop ends when enough different blocks have
      been drawn, and the method gives up when the draws run out first. */
  method GenerateQuery(counts: seq<nat>, class_: Class, percent: nat, previous: seq<BlockId>, draws: seq<u64>)
      returns (r: Option<seq<BlockId>>)
    requires counts != [] && (forall i :: 0 <= i < |counts| ==> counts[i] > 0) && BlocksBefore(counts, |counts|) > 0
    requires class_.minimum <= class_.maximum && Within(counts, previous)
    requires percent <= 100 && (class_.fanout ==> percent == 0)
    ensures r.Some? <==> Completes(counts, class_, percent, previous, draws)
    ensures r.Some? ==> Shaped(counts, class_, percent, previous, draws, r.value)
  {
    if |draws| < Spent(previous) {
      return None;
    }
    var target := QueryTarget(counts, class_, draws);
    var overlap := Overlap(target, percent, previous);
    OverlapBound(target, percent, previous);
    var selected: seq<BlockId>, rest := [], draws[Spent(previous)..];
    if previous != [] {
      selected := TakeOverlap(counts, previous, draws[1] % |previous|, overlap);
    }
    if class_.fanout {
      r := FanOut(counts, rest);
    } else {
      assert Elements(selected) == Kept(counts, class_, percent, previous, draws);
      r := Fill(counts, selected, target, rest);
      if r.Some? {
        SharedAtLeast(selected, Elements(previous), r.value);
      }
    }
  }

  lemma OverlapBound(target: nat, percent: nat, previous: seq<BlockId>)
    requires percent <= 100
    ensures Overlap(target, percent, previous) <= target && Overlap(target, percent, previous) <= |previous|
    ensures percent == 0 ==> Overlap(target, percent, previous) == 0
  {
    MulMonotone(target, target, percent, 100);
  }

  lemma {:induction false} ElementsSize(s: seq<BlockId>)
    requires Ascending(s)
    ensures |Elements(s)| == |s|
  {
    if s != [] {
      ElementsSize(s[1..]);
      assert s == [s[0]] + s[1..];
      assert Elements(s) == {s[0]} + Elements(s[1..]);
    }
  }

  lemma SharedAtLeast(selected: seq<BlockId>, previous: set<BlockId>, blocks: seq<BlockId>)
    requires Ascending(selected) && Elements(selected) <= previous && Elements(selected) <= Elements(blocks)
    ensures |Elements(blocks) * previous| >= |selected|
  {
    ElementsSize(selected);
    var shared := Elements(blocks) * previous;
    assert shared == Elements(selected) + (shared - Elements(selected));
  }

  /** The blocks that a list of draws selects. */
  ghost function Drawn(counts: seq<nat>, draws: seq<u64>): set<BlockId>
    requires BlocksBefore(counts, |counts|) > 0
  {
    if draws == [] then {}
    else Drawn(counts, Front(draws)) + {BlockAt(counts, Last(draws) % BlocksBefore(counts, |counts|))}
  }

  /** The start and the blocks of the first `n` draws. */
  ghost function Reached(counts: seq<nat>, start: seq<BlockId>, draws: seq<u64>, n: nat): set<BlockId>
    requires BlocksBefore(counts, |counts|) > 0 && n <= |draws|
  {
    Elements(start) + Drawn(counts, draws[..n])
  }

  lemma ReachedStep(counts: seq<nat>, start: seq<BlockId>, draws: seq<u64>, n: nat)
    requires BlocksBefore(counts, |counts|) > 0 && n < |draws|
    ensures Reached(counts, start, draws, n + 1)
         == Reached(counts, start, draws, n) + {BlockAt(counts, draws[n] % BlocksBefore(counts, |counts|))}
  {
    assert Front(draws[..n + 1]) == draws[..n];
  }

  lemma {:induction false} ReachedGrows(counts: seq<nat>, start: seq<BlockId>, draws: seq<u64>, n: nat)
    requires BlocksBefore(counts, |counts|) > 0 && n <= |draws|
    ensures Reached(counts, start, draws, n) <= Elements(start) + Drawn(counts, draws)
    ensures n == |draws| ==> Reached(counts, start, draws, n) == Elements(start) + Drawn(counts, draws)
    decreases |draws| - n
  {
    if n < |draws| {
      ReachedStep(counts, start, draws, n);
      ReachedGrows(counts, start, draws, n + 1);
    } else {
      assert draws[..n] == draws;
    }
  }

  /** After `n` draws `blocks` are what was reached, and one draw less had not reached the target. */
  ghost predicate FilledAfter(
      counts: seq<nat>, start: seq<BlockId>, target: nat, draws: seq<u64>, blocks: seq<BlockId>, n: nat)
    requires BlocksBefore(counts, |counts|) > 0
  {
    && n <= |draws| && Elements(blocks) == Reached(counts, start, draws, n)
    && (n > 0 ==> |Reached(counts, start, draws, n - 1)| < target)
  }

  lemma FilledStep(counts: seq<nat>, start: seq<BlockId>, target: nat, draws: seq<u64>, blocks: seq<BlockId>, n: nat)
    requires BlocksBefore(counts, |counts|) > 0 && n < |draws| && Within(counts, blocks) && |blocks| < target
    requires FilledAfter(counts, start, target, draws, blocks, n)
    ensures var block := BlockAt(counts, draws[n] % BlocksBefore(counts, |counts|));
            && FilledAfter(counts, start, target, draws, Insert(blocks, block), n + 1)
            && Within(counts, Insert(blocks, block)) && |Insert(blocks, block)| <= target
  {
    var block := BlockAt(counts, draws[n] % BlocksBefore(counts, |counts|));
    InsertWithin(counts, blocks, block);
    ReachedStep(counts, start, draws, n);
    ElementsSize(blocks);
  }

  /** The fill loop stops at the first draw that reaches the target. */
  method FillLoop(counts: seq<nat>, start: seq<BlockId>, target: nat, draws: seq<u64>)
      returns (selected: seq<BlockId>, used: nat)
    requires Within(counts, start) && |start| <= target && BlocksBefore(counts, |counts|) > 0
    ensures Within(counts, selected) && FilledAfter(counts, start, target, draws, selected, used)
    ensures |selected| == target || (|selected| < target && used == |draws|)
  {
    selected, used := start, 0;
    assert Drawn(counts, draws[..0]) == {};
    while |selected| < target && used < |draws|
      invariant FilledAfter(counts, start, target, draws, selected, used)
      invariant Within(counts, selected) && |selected| <= target
      decreases |draws| - used
    {
      var block := BlockFromGlobal(counts, draws[used] % BlocksBefore(counts, |counts|));
      FilledStep(counts, start, target, draws, selected, used);
      selected, used := Insert(selected, block), used + 1;
    }
  }

  /** Filling runs out exactly when the start and all drawn blocks together are fewer than the target. */
  method Fill(counts: seq<nat>, start: seq<BlockId>, target: nat, draws: seq<u64>) returns (r: Option<seq<BlockId>>)
    requires Within(counts, start) && |start| <= target && BlocksBefore(counts, |counts|) > 0
    ensures r.None? <==> |Elements(start) + Drawn(counts, draws)| < target
    ensures r.Some? ==> Within(counts, r.value) && |r.value| == target && Elements(start) <= Elements(r.value)
    ensures r.Some? ==> exists n :: FilledAfter(counts, start, target, draws, r.value, n)
  {
    var selected, used := FillLoop(counts, start, target, draws);
    ElementsSize(selected);
    ReachedGrows(counts, start, draws, used);
    SubsetSize(Elements(selected), Elements(start) + Drawn(counts, draws));
    r := if |selected| == target then Some(selected) else None;
  }

  method FanOut(counts: seq<nat>, draws: seq<u64>) returns (r: Option<seq<BlockId>>)
    requires forall i :: 0 <= i < |counts| ==> counts[i] > 0
    ensures r.Some? <==> |draws| >= |counts|
    ensures r.Some? ==> Within(counts, r.value) && |r.value| == |counts|
    ensures r.Some? ==> forall i :: 0 <= i < |counts| ==> r.value[i] == BlockId(i, draws[i] % counts[i])
  {
    if |draws| < |counts| {
      return None;
    }
    var selected: seq<BlockId> := [];
    for i := 0 to |counts|
      invariant |selected| == i && forall k :: 0 <= k < i ==> selected[k] == BlockId(k, draws[k] % counts[k])
    {
      var block := BlockId(i, draws[i] % counts[i]);
      InsertLast(selected, block);
      selected := Insert(selected, block);
    }
    r := Some(selected);
  }

  lemma {:induction false} InsertLast(s: seq<BlockId>, x: BlockId)
    requires forall k :: 0 <= k < |s| ==> BlockLess(s[k], x)
    ensures Insert(s, x) == s + [x]
  {
    if s != [] {
      InsertLast(s[1..], x);
      assert s == [s[0]] + s[1..];
    }
  }

  /** Query `q` belongs to the class whose queries fill up the mix to `q`. */
  function ClassOf(objects: nat, q: nat): Class {
    if q < 10 then Classes(objects)[0]
    else if q < 22 then Classes(objects)[1]
    else if q < 34 then Classes(objects)[2]
    else if q < 40 then Classes(objects)[3]
    else Classes(objects)[4]
  }

  function PercentOf(q: nat): nat { if q < 40 then OVERLAP_LEVELS[q % 4] else 0 }

  function Previous(queries: seq<seq<BlockId>>, q: nat): seq<BlockId>
    requires q <= |queries|
  {
    if q == 0 then [] else queries[q - 1]
  }

  /** Query `q` has the size of its class and its overlap with the query before it. */
  ghost predicate ShapedAt(counts: seq<nat>, draws: nat -> seq<u64>, queries: seq<seq<BlockId>>, q: nat)
    requires q < |queries|
  {
    Shaped(counts, ClassOf(|counts|, q), PercentOf(q), Previous(queries, q), draws(q), queries[q])
  }

  /** The mix: 43 queries of five classes. */
  ghost predicate Mixed(counts: seq<nat>, draws: nat -> seq<u64>, queries: seq<seq<BlockId>>) {
    forall q :: 0 <= q < |queries| ==> ShapedAt(counts, draws, queries, q)
  }

  lemma MixedMore(counts: seq<nat>, draws: nat -> seq<u64>, queries: seq<seq<BlockId>>, query: seq<BlockId>)
    requires Mixed(counts, draws, queries)
    requires var q := |queries|;
             Shaped(counts, ClassOf(|counts|, q), PercentOf(q), Previous(queries, q), draws(q), query)
    ensures Mixed(counts, draws, queries + [query])
  {
    var more := queries + [query];
    forall q | 0 <= q < |more|
      ensures ShapedAt(counts, draws, more, q)
    {
      assert Previous(more, q) == Previous(queries, q);
      if q < |queries| {
        assert ShapedAt(counts, draws, queries, q);
      }
    }
  }

  lemma {:induction false} BlocksPositive(counts: seq<nat>, n: nat)
    requires 0 < n <= |counts| && forall i :: 0 <= i < |counts| ==> counts[i] > 0
    ensures BlocksBefore(counts, n) > 0
  {
  }

  /** One more query, shaped by its place in the mix. */
  method NextQuery(counts: seq<nat>, class_: Class, draws: nat -> seq<u64>, queries: seq<seq<BlockId>>)
      returns (r: Option<seq<BlockId>>)
    requires counts != [] && (forall i :: 0 <= i < |counts| ==> counts[i] > 0) && BlocksBefore(counts, |counts|) > 0
    requires |queries| < 43 && Mixed(counts, draws, queries) && class_ == ClassOf(|counts|, |queries|)
    ensures r.None? <==>
            var q := |queries|; !Completes(counts, class_, PercentOf(q), Previous(queries, q), draws(q))
    ensures r.Some? ==> Mixed(counts, draws, queries + [r.value])
  {
    var q := |queries|;
    var percent := if class_.fanout then 0 else OVERLAP_LEVELS[q % 4];
    assert q > 0 ==> ShapedAt(counts, draws, queries, q - 1);
    r := GenerateQuery(counts, class_, percent, Previous(queries, q), draws(q));
    if r.Some? {
      MixedMore(counts, draws, queries, r.value);
    }
  }

  /** All 43 queries, each drawing its overlap from the one before it. It gives up at the first query whose draws do not
      suffice. */
  method GenerateQueries(counts: seq<nat>, draws: nat -> seq<u64>) returns (r: Option<seq<seq<BlockId>>>)
    requires counts != [] && forall i :: 0 <= i < |counts| ==> counts[i] > 0
    ensures r.Some? ==> |r.value| == 43 && Mixed(counts, draws, r.value)
    ensures r.None? ==> exists queries ::
              && |queries| < 43 && Mixed(counts, draws, queries) && BlocksBefore(counts, |counts|) > 0
              && var q := |queries|;
                 !Completes(counts, ClassOf(|counts|, q), PercentOf(q), Previous(queries, q), draws(q))
  {
    BlocksPositive(counts, |counts|);
    var queries: seq<seq<BlockId>> := [];
    var classes := Classes(|counts|);
    for c := 0 to |classes|
      invariant |queries| == [0, 10, 22, 34, 40, 43][c] && Mixed(counts, draws, queries)
    {
      ghost var start := |queries|;
      for n := 0 to classes[c].count
        invariant |queries| == start + n && Mixed(counts, draws, queries)
      {
        var query := NextQuery(counts, classes[c], draws, queries);
        if query.None? {
          return None;
        }
        queries := queries + [query.value];
      }
    }
    r := Some(queries);
  }

  lemma MixedWithin(counts: seq<nat>, draws: nat -> seq<u64>, queries: seq<seq<BlockId>>, q: nat)
    requires Mixed(counts, draws, queries) && q < |queries|
    ensures Within(counts, queries[q])
  {
    assert ShapedAt(counts, draws, queries, q);
  }
}
