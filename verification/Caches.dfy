/** The two bounded first-in first-out caches: the block payload cache (byte budget) and the owner's manifest cache
    (entry count). CIDs stand for their string form, which determines them. */
module Caches {
  import opened Arithmetic
  import opened Common

  type Cid = string

  datatype Block = Block(cid: Cid, payload: seq<bv8>)

  const MAX_CACHEABLE_BLOCK_BYTES: nat := 256 * 1024
  const BUDGET_BYTES: nat := 256 * 1024 * 1024

  // ---- What a budgeted queue holds ----

  function TotalBytes(blocks: seq<Block>): nat {
    if blocks == [] then 0 else |blocks[0].payload| + TotalBytes(blocks[1..])
  }

  /** The longest suffix of a history that fits the budget. */
  function Fitting(history: seq<Block>, budget: nat): seq<Block> {
    if TotalBytes(history) <= budget then history else Fitting(history[1..], budget)
  }

  lemma {:induction false} TotalBytesAppend(a: seq<Block>, b: seq<Block>)
    ensures TotalBytes(a + b) == TotalBytes(a) + TotalBytes(b)
  {
    if a == [] {
      assert a + b == b;
    } else {
      assert (a + b)[1..] == a[1..] + b;
      TotalBytesAppend(a[1..], b);
    }
  }

  /** `Fitting` is a suffix that fits, and no longer suffix fits. */
  lemma {:induction false} FittingIsLongest(history: seq<Block>, budget: nat)
    ensures var n := |Fitting(history, budget)|;
            && n <= |history|
            && Fitting(history, budget) == history[|history| - n..]
            && TotalBytes(Fitting(history, budget)) <= budget
            && forall k :: 0 <= k < |history| - n ==> TotalBytes(history[k..]) > budget
  {
    if TotalBytes(history) > budget {
      FittingIsLongest(history[1..], budget);
      var n := |Fitting(history, budget)|;
      assert history[1..][|history| - 1 - n..] == history[|history| - n..];
      forall k | 0 <= k < |history| - n
        ensures TotalBytes(history[k..]) > budget
      {
        if k > 0 {
          assert history[k..] == history[1..][k - 1..];
        } else {
          assert history[k..] == history;
        }
      }
    }
  }

  /** What fell out of the budget stays out: the cache needs only what it holds, not the whole history. */
  lemma {:induction false} FittingIncremental(history: seq<Block>, x: Block, budget: nat)
    ensures Fitting(history + [x], budget) == Fitting(Fitting(history, budget) + [x], budget)
  {
    if TotalBytes(history) > budget {
      TotalBytesAppend(history, [x]);
      assert (history + [x])[1..] == history[1..] + [x];
      FittingIncremental(history[1..], x, budget);
    }
  }

  /** A block survives its own admission exactly when it fits the budget on its own. */
  lemma NewestKeptIff(history: seq<Block>, x: Block, budget: nat)
    ensures var f := Fitting(history + [x], budget);
            (f != [] && f[|f| - 1] == x) <==> |x.payload| <= budget
  {
    var h := history + [x];
    var f := Fitting(h, budget);
    FittingIsLongest(h, budget);
    assert h[|history|..] == [x] && TotalBytes([x]) == |x.payload|;
    if f != [] {
      assert f == f[..|f| - 1] + [x];
      TotalBytesAppend(f[..|f| - 1], [x]);
    }
  }

  // ---- The fields of a cache against the blocks it holds ----

  function Cids(blocks: seq<Block>): seq<Cid> { seq(|blocks|, i requires 0 <= i < |blocks| => blocks[i].cid) }

  /** Queue, table and byte total all describe `held`, which has no CID twice. */
  ghost predicate Holds(held: seq<Block>, entries: map<Cid, Block>, order: seq<Cid>, bytes: nat) {
    && order == Cids(held) && bytes == TotalBytes(held)
    && (forall i, j :: 0 <= i < j < |held| ==> held[i].cid != held[j].cid)
    && (forall i :: 0 <= i < |held| ==> held[i].cid in entries && entries[held[i].cid] == held[i])
    && (forall c :: c in entries ==> c in order)
  }

  lemma HoldsMore(held: seq<Block>, entries: map<Cid, Block>, order: seq<Cid>, bytes: nat, x: Block)
    requires Holds(held, entries, order, bytes) && x.cid !in entries
    ensures Holds(held + [x], entries[x.cid := x], order + [x.cid], bytes + |x.payload|)
  {
    TotalBytesAppend(held, [x]);
    assert Cids(held + [x]) == Cids(held) + [x.cid];
  }

  lemma HoldsLess(held: seq<Block>, entries: map<Cid, Block>, order: seq<Cid>, bytes: nat)
    requires held != [] && Holds(held, entries, order, bytes)
    ensures order != [] && order[0] == held[0].cid && order[0] in entries && entries[order[0]] == held[0]
    ensures bytes >= |held[0].payload|
    ensures Holds(held[1..], entries - {order[0]}, order[1..], bytes - |held[0].payload|)
  {
    assert Cids(held[1..]) == order[1..];
    forall c | c in entries - {order[0]}
      ensures c in order[1..]
    {
      assert order == [order[0]] + order[1..];
    }
  }

  /** Over budget, the newest block is not the only one, so evicting the oldest spares it. */
  lemma EvictsOlder(held: seq<Block>, newest: Block)
    requires held != [] && held[|held| - 1] == newest && |newest.payload| <= BUDGET_BYTES
    requires TotalBytes(held) > BUDGET_BYTES
    ensures held[1..] != [] && held[1..][|held| - 2] == newest
    ensures Fitting(held[1..], BUDGET_BYTES) == Fitting(held, BUDGET_BYTES)
  {
    assert TotalBytes(held) == |held[0].payload| + TotalBytes(held[1..]);
  }

  class BlockPayloadCache {
    var entries: map<Cid, Block>
    var order: seq<Cid>
    var bytes: nat
    var hits: nat
    var misses: nat
    ghost const store: Cid -> seq<bv8>   // the content-addressed store: the payload a CID names
    ghost var admitted: seq<Block>       // every block ever taken in, oldest first

    ghost function Held(): seq<Block>
      reads this
    {
      Fitting(admitted, BUDGET_BYTES)
    }

    /** The cache holds exactly the longest suffix of its admissions that fits the budget. */
    ghost predicate Valid()
      reads this
    {
      && Holds(Held(), entries, order, bytes)
      && forall i :: 0 <= i < |admitted| ==> admitted[i].payload == store(admitted[i].cid)
    }

    constructor (ghost store: Cid -> seq<bv8>)
      ensures Valid() && admitted == [] && entries == map[] && this.store == store
    {
      entries, order, bytes, hits, misses := map[], [], 0, 0, 0;
      this.store, admitted := store, [];
    }

    /** A hit returns a block that is held, and it is the one the store has under this CID; a miss means the CID is
        not held. */
    method Get(cid: Cid) returns (block: Option<Block>)
      requires Valid()
      modifies this`hits, this`misses
      ensures Valid()
      ensures block.Some? ==> block.value in Held() && block.value == Block(cid, store(cid))
      ensures block.None? ==> forall b :: b in Held() ==> b.cid != cid
      ensures hits + misses == old(hits + misses) + 1 && hits == old(hits) + if block.Some? then 1 else 0
    {
      if cid in entries {
        assert cid in order;
        FittingIsLongest(admitted, BUDGET_BYTES);
        block := Some(entries[cid]);
        hits := hits + 1;
      } else {
        block := None;
        misses := misses + 1;
      }
    }

    /** Oversized blocks and blocks already held change nothing; any other block is admitted, evicting the oldest
        blocks until the budget holds, and is itself still held afterwards. */
    method Put(block: Block)
      requires Valid() && block.payload == store(block.cid)
      modifies this`entries, this`order, this`bytes, this`admitted
      ensures Valid()
      ensures if |block.payload| > MAX_CACHEABLE_BLOCK_BYTES || block.cid in old(entries)
              then admitted == old(admitted) && entries == old(entries) && order == old(order)
              else admitted == old(admitted) + [block] && block.cid in entries
    {
      if |block.payload| > MAX_CACHEABLE_BLOCK_BYTES {
        return;
      }
      if block.cid in entries {
        return;
      }
      HoldsMore(Held(), entries, order, bytes, block);
      FittingIsLongest(admitted, BUDGET_BYTES);
      FittingIncremental(admitted, block, BUDGET_BYTES);
      ghost var held := Held() + [block];
      bytes := SatAdd(bytes, |block.payload|);
      entries := entries[block.cid := block];
      order := order + [block.cid];
      admitted := admitted + [block];
      Evict(held);
    }

    /** The eviction loop of `Put`: drops the oldest blocks until the budget holds. */
    method Evict(ghost held: seq<Block>)
      requires held != [] && |held[|held| - 1].payload| <= BUDGET_BYTES
      requires Holds(held, entries, order, bytes)
      modifies this`entries, this`order, this`bytes
      ensures Holds(Fitting(held, BUDGET_BYTES), entries, order, bytes)
      ensures held[|held| - 1].cid in entries
    {
      ghost var left := held;
      while bytes > BUDGET_BYTES
        invariant left != [] && left[|left| - 1] == held[|held| - 1]
        invariant Holds(left, entries, order, bytes)
        invariant Fitting(left, BUDGET_BYTES) == Fitting(held, BUDGET_BYTES)
        decreases |order|
      {
        HoldsLess(left, entries, order, bytes);
        EvictsOlder(left, held[|held| - 1]);
        var evicted := order[0];
        order := order[1..];
        bytes := SatSub(bytes, |entries[evicted].payload|);
        entries := entries - {evicted};
        left := left[1..];
      }
    }
  }

  // ---- The manifest cache ----

  const OWNER_MANIFEST_CACHE_ENTRIES: nat := 1_024

  datatype Admission<M> = Admission(cid: Cid, manifest: M)

  /** The last `n` elements, or all of them if there are fewer. */
  function LastOf<T>(s: seq<T>, n: nat): seq<T> { if |s| <= n then s else s[|s| - n..] }

  ghost predicate Caches<M(!new)>(held: seq<Admission<M>>, entries: map<Cid, M>, order: seq<Cid>) {
    && |order| == |held| == |entries|
    && (forall i :: 0 <= i < |held| ==> order[i] == held[i].cid)
    && (forall i, j :: 0 <= i < j < |held| ==> held[i].cid != held[j].cid)
    && (forall i :: 0 <= i < |held| ==> held[i].cid in entries && entries[held[i].cid] == held[i].manifest)
    && (forall c :: c in entries ==> c in order)
  }

  class OwnerManifestCache<M(!new)> {
    var entries: map<Cid, M>
    var insertionOrder: seq<Cid>
    ghost var admitted: seq<Admission<M>>

    /** The cache holds exactly its last 1024 admissions. */
    ghost predicate Valid()
      reads this
    {
      Caches(LastOf(admitted, OWNER_MANIFEST_CACHE_ENTRIES), entries, insertionOrder)
    }

    constructor ()
      ensures Valid() && admitted == []
    {
      entries, insertionOrder, admitted := map[], [], [];
    }

    method Get(cid: Cid) returns (manifest: Option<M>)
      requires Valid()
      ensures manifest.Some? ==>
                Admission(cid, manifest.value) in LastOf(admitted, OWNER_MANIFEST_CACHE_ENTRIES)
      ensures manifest.None? ==>
                forall a :: a in LastOf(admitted, OWNER_MANIFEST_CACHE_ENTRIES) ==> a.cid != cid
    {
      manifest := if cid in entries then Some(entries[cid]) else None;
      if cid in entries {
        var i :| 0 <= i < |insertionOrder| && insertionOrder[i] == cid;
        assert LastOf(admitted, OWNER_MANIFEST_CACHE_ENTRIES)[i] == Admission(cid, entries[cid]);
      }
    }

    method Insert(cid: Cid, manifest: M)
      requires Valid()
      modifies this
      ensures Valid()
      ensures if cid in old(entries) then admitted == old(admitted) && entries == old(entries)
              else admitted == old(admitted) + [Admission(cid, manifest)] && cid in entries
    {
      if cid in entries {
        return;
      }
      ghost var held := LastOf(admitted, OWNER_MANIFEST_CACHE_ENTRIES);
      ghost var a := Admission(cid, manifest);
      Expire(held);
      LastOfMore(admitted, a, OWNER_MANIFEST_CACHE_ENTRIES);
      CachesMore(LastOf(held, OWNER_MANIFEST_CACHE_ENTRIES - 1), entries, insertionOrder, a);
      insertionOrder := insertionOrder + [cid];
      entries := entries[cid := manifest];
      admitted := admitted + [a];
    }

    /** The expiry loop of `Insert`: drops the oldest entries until there is room for one more. */
    method Expire(ghost held: seq<Admission<M>>)
      requires Caches(held, entries, insertionOrder)
      modifies this`entries, this`insertionOrder
      ensures Caches(LastOf(held, OWNER_MANIFEST_CACHE_ENTRIES - 1), entries, insertionOrder)
      ensures entries.Keys <= old(entries.Keys)
    {
      ghost var left := held;
      while |entries| >= OWNER_MANIFEST_CACHE_ENTRIES
        invariant Caches(left, entries, insertionOrder)
        invariant LastOf(left, OWNER_MANIFEST_CACHE_ENTRIES - 1) == LastOf(held, OWNER_MANIFEST_CACHE_ENTRIES - 1)
        decreases |entries|
      {
        var expired := insertionOrder[0];
        ExpireStep(left, entries, insertionOrder, OWNER_MANIFEST_CACHE_ENTRIES - 1);
        insertionOrder := insertionOrder[1..];
        entries := entries - {expired};
        left := left[1..];
      }
      assert left == LastOf(held, OWNER_MANIFEST_CACHE_ENTRIES - 1);
      KeysShrink(held, old(entries), old(insertionOrder), OWNER_MANIFEST_CACHE_ENTRIES - 1, entries, insertionOrder);
    }
  }

  lemma KeysShrink<M(!new)>(
      held: seq<Admission<M>>, entries: map<Cid, M>, order: seq<Cid>, n: nat, fewer: map<Cid, M>, rest: seq<Cid>)
    requires Caches(held, entries, order) && Caches(LastOf(held, n), fewer, rest)
    ensures fewer.Keys <= entries.Keys
  {
    forall c | c in fewer
      ensures c in entries
    {
      var i :| 0 <= i < |rest| && rest[i] == c;
      assert LastOf(held, n)[i] in held;
    }
  }

  lemma ExpireStep<M(!new)>(held: seq<Admission<M>>, entries: map<Cid, M>, order: seq<Cid>, n: nat)
    requires Caches(held, entries, order) && |entries| > n
    ensures Caches(held[1..], entries - {order[0]}, order[1..]) && LastOf(held[1..], n) == LastOf(held, n)
    ensures |entries - {order[0]}| < |entries|
  {
    CachesLess(held, entries, order);
    LastOfTail(held, n);
  }

  lemma LastOfTail<T>(s: seq<T>, n: nat)
    requires |s| > n
    ensures LastOf(s[1..], n) == LastOf(s, n)
  {
  }

  lemma LastOfMore<T>(s: seq<T>, x: T, n: nat)
    requires n > 0
    ensures LastOf(s + [x], n) == LastOf(LastOf(s, n), n - 1) + [x]
  {
  }

  lemma CachesLess<M(!new)>(held: seq<Admission<M>>, entries: map<Cid, M>, order: seq<Cid>)
    requires held != [] && Caches(held, entries, order)
    ensures Caches(held[1..], entries - {order[0]}, order[1..])
  {
    assert (entries - {order[0]}).Keys == entries.Keys - {order[0]};
    forall c | c in entries - {order[0]}
      ensures c in order[1..]
    {
      assert order == [order[0]] + order[1..];
    }
  }

  lemma CachesMore<M(!new)>(held: seq<Admission<M>>, entries: map<Cid, M>, order: seq<Cid>, a: Admission<M>)
    requires Caches(held, entries, order) && a.cid !in entries
    ensures Caches(held + [a], entries[a.cid := a.manifest], order + [a.cid])
  {
    assert entries[a.cid := a.manifest].Keys == entries.Keys + {a.cid};
  }
}
