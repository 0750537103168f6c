/** The size of a compute input: a worklist walk over the blocks reachable through directory manifests. */
module LogicalSize {
  import opened Arithmetic
  import opened Common

  datatype Codec = Raw | SmallObject | ObjectManifest | ErasureManifest | DirManifest | Other

  datatype Cid = Cid(codec: Codec, digest: string)

  /** What the block store and the manifest decoders report for a CID: a sized block or manifest that passed its
      validation, a valid directory (entries may have no CID), or a failure of any of those. */
  datatype Content = Sized(size: u64) | Directory(entries: seq<Option<Cid>>) | Unusable(message: string)

  type Store = Cid -> Content

  const BLOCK_LIMIT: nat := 100_000

  /** A leaf adds its size, a directory adds its children; everything else ends the walk with an error. */
  predicate Usable(store: Store, cid: Cid) {
    match cid.codec
    case Other => false
    case DirManifest => store(cid).Directory?
    case _ => store(cid).Sized?
  }

  function LeafSize(store: Store, cid: Cid): u64 {
    if !cid.codec.DirManifest? && store(cid).Sized? then store(cid).size else 0
  }

  function Present(entries: seq<Option<Cid>>): (cids: seq<Cid>)
    ensures forall c :: c in cids <==> Some(c) in entries
  {
    if entries == [] then []
    else
      var rest := Present(entries[1..]);
      assert entries == [entries[0]] + entries[1..];
      if entries[0].Some? then [entries[0].value] + rest else rest
  }

  function Children(store: Store, cid: Cid): seq<Cid> {
    if cid.codec.DirManifest? && store(cid).Directory? then Present(store(cid).entries) else []
  }

  /** What one visited CID adds to the total and to the worklist. */
  function Visit(store: Store, cid: Cid): (r: Result<(u64, seq<Cid>)>)
    ensures r.Ok? <==> Usable(store, cid)
    ensures r.Ok? ==> r.value == (LeafSize(store, cid), Children(store, cid))
  {
    match cid.codec
    case Other => Err("unsupported compute input codec")
    case DirManifest =>
      (match store(cid)
       case Directory(entries) => Ok((0, Present(entries)))
       case Sized(_) => Err("not a directory manifest")
       case Unusable(message) => Err(message))
    case _ =>
      match store(cid)
      case Sized(size) => Ok((size, []))
      case Directory(_) => Err("not a sized block")
      case Unusable(message) => Err(message)
  }

  // ---- Reachability ----

  /** `path` leads from `root` to its last CID, one directory entry at a time. */
  ghost predicate IsPath(store: Store, root: Cid, path: seq<Cid>) {
    && |path| > 0 && path[0] == root
    && forall i :: 0 <= i < |path| - 1 ==> path[i + 1] in Children(store, path[i])
  }

  ghost predicate Reachable(store: Store, root: Cid, cid: Cid) {
    exists path :: IsPath(store, root, path) && path[|path| - 1] == cid
  }

  lemma RootReachable(store: Store, root: Cid)
    ensures Reachable(store, root, root)
  {
    assert IsPath(store, root, [root]);
  }

  lemma ChildReachable(store: Store, root: Cid, cid: Cid, child: Cid)
    requires Reachable(store, root, cid) && child in Children(store, cid)
    ensures Reachable(store, root, child)
  {
    var path :| IsPath(store, root, path) && path[|path| - 1] == cid;
    assert IsPath(store, root, path + [child]);
  }

  lemma ChildrenReachable(store: Store, root: Cid, cid: Cid)
    requires Reachable(store, root, cid)
    ensures forall c :: c in Children(store, cid) ==> Reachable(store, root, c)
  {
    forall c | c in Children(store, cid)
      ensures Reachable(store, root, c)
    {
      ChildReachable(store, root, cid, c);
    }
  }

  /** A set that contains the root and every child of its members contains everything reachable. */
  lemma {:induction false} ClosedContains(store: Store, root: Cid, closed: set<Cid>, path: seq<Cid>)
    requires root in closed && IsPath(store, root, path)
    requires forall c, d :: c in closed && d in Children(store, c) ==> d in closed
    ensures path[|path| - 1] in closed
    decreases |path|
  {
    if |path| > 1 {
      var front := path[..|path| - 1];
      assert IsPath(store, root, front);
      ClosedContains(store, root, closed, front);
      assert path[|path| - 2 + 1] in Children(store, path[|path| - 2]);
    }
  }

  ghost predicate ReachSet(store: Store, root: Cid, s: set<Cid>) {
    forall c :: c in s <==> Reachable(store, root, c)
  }

  // ---- Sums over sets ----

  ghost function Any(s: set<Cid>): (c: Cid)
    requires s != {}
    ensures c in s
  {
    var c :| c in s;
    c
  }

  ghost function TotalSize(store: Store, s: set<Cid>): nat {
    if s == {} then 0 else LeafSize(store, Any(s)) + TotalSize(store, s - {Any(s)})
  }

  /** The sum does not depend on the order the set is visited in. */
  lemma {:induction false} TotalSizePick(store: Store, s: set<Cid>, c: Cid)
    requires c in s
    ensures TotalSize(store, s) == LeafSize(store, c) + TotalSize(store, s - {c})
    decreases |s|
  {
    var d := Any(s);
    if d != c {
      TotalSizePick(store, s - {d}, c);
      TotalSizePick(store, s - {c}, d);
      assert s - {d} - {c} == s - {c} - {d};
    }
  }

  lemma {:induction false} TotalSizeMonotone(store: Store, s: set<Cid>, t: set<Cid>)
    requires s <= t
    ensures TotalSize(store, s) <= TotalSize(store, t)
    decreases |t|
  {
    if t - s == {} {
      assert s == t;
    } else {
      var c :| c in t - s;
      TotalSizePick(store, t, c);
      TotalSizeMonotone(store, s, t - {c});
    }
  }

  // ---- The walk ----

  /** The inputs the walk accepts: finitely many reachable CIDs, at most 100000, all usable, sizes that fit 64 bits. */
  ghost predicate Measurable(store: Store, root: Cid, s: set<Cid>) {
    && ReachSet(store, root, s) && |s| <= BLOCK_LIMIT
    && (forall c :: c in s ==> Usable(store, c))
    && TotalSize(store, s) <= U64_MAX
  }

  /** The walk ends on every link graph, shared or cyclic. It succeeds exactly on the measurable inputs, and then
      returns the sum of the sizes of the distinct reachable leaves. */
  method LogicalCidSize(store: Store, root: Cid) returns (r: Result<u64>)
    ensures r.Ok? <==> exists s :: Measurable(store, root, s)
    ensures forall s :: r.Ok? && Measurable(store, root, s) ==> r.value == TotalSize(store, s)
  {
    var total: u64 := 0;
    var seen: set<Cid> := {};
    var queue := [root];
    RootReachable(store, root);
    while |queue| > 0
      invariant Frontier(store, root, seen, queue)
      invariant |seen| <= BLOCK_LIMIT && total == TotalSize(store, seen)
      decreases BLOCK_LIMIT - |seen|, |queue|
    {
      var cid, rest := queue[0], queue[1..];
      if cid in seen {
        FrontierSkips(store, root, seen, queue);
        queue := rest;
        continue;
      }
      FrontierReaches(store, root, seen, queue);
      TotalSizeMore(store, seen, cid);
      if |seen + {cid}| > BLOCK_LIMIT {
        TooManyReachable(store, root, seen + {cid});
        return Err("compute input DAG exceeds the 100000-block safety limit");
      }
      var visit := Visit(store, cid);
      if visit.Err? {
        NotMeasurable(store, root, cid);
        return Err(visit.message);
      }
      var (size, children) := visit.value;
      if total + size > U64_MAX {
        Overflows(store, root, seen + {cid});
        return Err("compute input size overflow");
      }
      FrontierVisits(store, root, seen, queue);
      total, seen, queue := total + size, seen + {cid}, rest + children;
    }
    WalkMeasured(store, root, seen);
    r := Ok(total);
  }

  /** Seen and queued CIDs are reachable, seen ones are usable, and the queue holds what is missing behind them. */
  ghost predicate Frontier(store: Store, root: Cid, seen: set<Cid>, queue: seq<Cid>) {
    && (forall c :: c in seen || c in queue ==> Reachable(store, root, c))
    && (root in seen || root in queue)
    && (forall c, d :: c in seen && d in Children(store, c) ==> d in seen || d in queue)
    && (forall c :: c in seen ==> Usable(store, c))
  }

  lemma FrontierSkips(store: Store, root: Cid, seen: set<Cid>, queue: seq<Cid>)
    requires Frontier(store, root, seen, queue) && queue != [] && queue[0] in seen
    ensures Frontier(store, root, seen, queue[1..])
  {
    assert forall c :: c in queue <==> c == queue[0] || c in queue[1..];
  }

  lemma FrontierReaches(store: Store, root: Cid, seen: set<Cid>, queue: seq<Cid>)
    requires Frontier(store, root, seen, queue) && queue != []
    ensures forall c :: c in seen + {queue[0]} ==> Reachable(store, root, c)
  {
  }

  lemma FrontierVisits(store: Store, root: Cid, seen: set<Cid>, queue: seq<Cid>)
    requires Frontier(store, root, seen, queue) && queue != [] && Usable(store, queue[0])
    ensures Frontier(store, root, seen + {queue[0]}, queue[1..] + Children(store, queue[0]))
  {
    assert forall c :: c in queue <==> c == queue[0] || c in queue[1..];
    ChildrenReachable(store, root, queue[0]);
  }

  lemma TotalSizeMore(store: Store, seen: set<Cid>, cid: Cid)
    requires cid !in seen
    ensures TotalSize(store, seen + {cid}) == TotalSize(store, seen) + LeafSize(store, cid)
  {
    TotalSizePick(store, seen + {cid}, cid);
    assert seen + {cid} - {cid} == seen;
  }

  lemma WalkMeasured(store: Store, root: Cid, seen: set<Cid>)
    requires root in seen && forall c :: c in seen ==> Reachable(store, root, c) && Usable(store, c)
    requires forall c, d :: c in seen && d in Children(store, c) ==> d in seen
    requires |seen| <= BLOCK_LIMIT && TotalSize(store, seen) <= U64_MAX
    ensures Measurable(store, root, seen)
    ensures forall s :: Measurable(store, root, s) ==> TotalSize(store, s) == TotalSize(store, seen)
  {
    WalkComplete(store, root, seen);
    forall s | Measurable(store, root, s)
      ensures TotalSize(store, s) == TotalSize(store, seen)
    {
      assert s == seen;
    }
  }

  lemma NotMeasurable(store: Store, root: Cid, cid: Cid)
    requires Reachable(store, root, cid) && !Usable(store, cid)
    ensures forall s :: !Measurable(store, root, s)
  {
  }

  lemma TooManyReachable(store: Store, root: Cid, seen: set<Cid>)
    requires |seen| > BLOCK_LIMIT && forall c :: c in seen ==> Reachable(store, root, c)
    ensures forall s :: !Measurable(store, root, s)
  {
    forall s | ReachSet(store, root, s)
      ensures |s| > BLOCK_LIMIT
    {
      SubsetSize(seen, s);
    }
  }

  lemma Overflows(store: Store, root: Cid, seen: set<Cid>)
    requires TotalSize(store, seen) > U64_MAX && forall c :: c in seen ==> Reachable(store, root, c)
    ensures forall s :: !Measurable(store, root, s)
  {
    forall s | ReachSet(store, root, s)
      ensures TotalSize(store, s) > U64_MAX
    {
      TotalSizeMonotone(store, seen, s);
    }
  }

  lemma WalkComplete(store: Store, root: Cid, seen: set<Cid>)
    requires root in seen && forall c :: c in seen ==> Reachable(store, root, c)
    requires forall c, d :: c in seen && d in Children(store, c) ==> d in seen
    ensures ReachSet(store, root, seen)
  {
    forall c | Reachable(store, root, c)
      ensures c in seen
    {
      var path :| IsPath(store, root, path) && path[|path| - 1] == c;
      ClosedContains(store, root, seen, path);
    }
  }
}
