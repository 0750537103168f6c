/** The synthetic dataset of the cache-fill benchmark: its textual specification and its block numbering. */
module Dataset {
  import opened Arithmetic
  import opened Common
  import D = Decimal

  const BLOCK_BYTES: nat := 8 * 1024 * 1024

  // ---- Splitting ----

  /** `str::split`: the pieces between separators; always at least one. */
  function Split(s: string, sep: char): (pieces: seq<string>)
    ensures pieces != []
  {
    if s == "" then [""]
    else
      var rest := Split(s[1..], sep);
      if s[0] == sep then [""] + rest else [[s[0]] + rest[0]] + rest[1..]
  }

  /** `str::split_once`: around the first separator. */
  function SplitOnce(s: string, sep: char): Option<(string, string)> {
    if s == "" then None
    else if s[0] == sep then Some(("", s[1..]))
    else
      match SplitOnce(s[1..], sep)
      case None => None
      case Some((left, right)) => Some(([s[0]] + left, right))
  }

  lemma {:induction false} SplitAt(piece: string, rest: string, sep: char)
    requires sep !in piece
    ensures Split(piece + [sep] + rest, sep) == [piece] + Split(rest, sep)
    ensures SplitOnce(piece + [sep] + rest, sep) == Some((piece, rest))
  {
    var s := piece + [sep] + rest;
    if piece == "" {
      assert s == [sep] + rest;
    } else {
      assert s[1..] == piece[1..] + [sep] + rest;
      SplitAt(piece[1..], rest, sep);
      assert [piece[0]] + piece[1..] == piece;
    }
  }

  lemma {:induction false} SplitWhole(piece: string, sep: char)
    requires sep !in piece
    ensures Split(piece, sep) == [piece]
  {
    if piece != "" {
      SplitWhole(piece[1..], sep);
      assert [piece[0]] + piece[1..] == piece;
    }
  }

  // ---- The specification COUNTxBYTES,COUNTxBYTES,... ----

  datatype Group = Group(count: nat, size: nat)

  predicate ValidGroup(g: Group) {
    0 < g.count <= U64_MAX && 0 < g.size <= U64_MAX && g.size % BLOCK_BYTES == 0
  }

  function ParseGroup(text: string): (g: Option<Group>)
    ensures g.Some? ==> ValidGroup(g.value)
  {
    match SplitOnce(text, 'x')
    case None => None
    case Some((count, size)) =>
      match (D.Parse(count, U64_MAX), D.Parse(size, U64_MAX))
      case (Some(c), Some(n)) => if ValidGroup(Group(c, n)) then Some(Group(c, n)) else None
      case _ => None
  }

  function Expand(groups: seq<Group>): seq<nat> {
    if groups == [] then []
    else Expand(groups[..|groups| - 1]) + Repeat(groups[|groups| - 1].size, groups[|groups| - 1].count)
  }

  /** Collects a list of results; one failure fails the whole. */
  function Collect<T>(results: seq<Option<T>>): Option<seq<T>> {
    if results == [] then Some([])
    else
      var front, last := Collect(results[..|results| - 1]), results[|results| - 1];
      if front.Some? && last.Some? then Some(front.value + [last.value]) else None
  }

  lemma {:induction false} CollectIff<T>(results: seq<Option<T>>)
    ensures Collect(results).Some? <==> forall i :: 0 <= i < |results| ==> results[i].Some?
    ensures Collect(results).Some? ==>
              |Collect(results).value| == |results| &&
              forall i :: 0 <= i < |results| ==> results[i] == Some(Collect(results).value[i])
  {
    if results != [] {
      CollectIff(results[..|results| - 1]);
    }
  }

  function ParsePieces(texts: seq<string>): seq<Option<Group>> {
    seq(|texts|, i requires 0 <= i < |texts| => ParseGroup(texts[i]))
  }

  function ParseGroups(texts: seq<string>): Option<seq<Group>> { Collect(ParsePieces(texts)) }

  lemma ExpandMore(groups: seq<Group>, g: Group)
    ensures Expand(groups + [g]) == Expand(groups) + Repeat(g.size, g.count)
  {
    assert (groups + [g])[..|groups|] == groups;
  }

  predicate WholeBlocks(sizes: seq<nat>) {
    forall i :: 0 <= i < |sizes| ==> sizes[i] > 0 && sizes[i] % BLOCK_BYTES == 0
  }

  lemma {:induction false} ExpandWhole(groups: seq<Group>)
    requires forall i :: 0 <= i < |groups| ==> ValidGroup(groups[i])
    ensures WholeBlocks(Expand(groups)) && (groups != [] ==> Expand(groups) != [])
  {
    if groups != [] {
      ExpandWhole(groups[..|groups| - 1]);
    }
  }

  /** Every object of an accepted specification is a positive number of whole blocks, and there is at least one. */
  method ParseDataset(value: string) returns (sizes: Option<seq<nat>>)
    ensures match ParseGroups(Split(value, ','))
            case None => sizes.None?
            case Some(groups) => sizes == Some(Expand(groups))
    ensures sizes.Some? ==> sizes.value != [] && WholeBlocks(sizes.value)
  {
    var pieces := ParsePieces(Split(value, ','));
    sizes := ExpandPieces(pieces);
  }

  /** The loop over the groups: stops at the first one that did not parse. */
  method ExpandPieces(pieces: seq<Option<Group>>) returns (sizes: Option<seq<nat>>)
    requires forall i :: 0 <= i < |pieces| && pieces[i].Some? ==> ValidGroup(pieces[i].value)
    ensures match Collect(pieces)
            case None => sizes.None?
            case Some(groups) => sizes == Some(Expand(groups))
    ensures sizes.Some? ==> (pieces != [] ==> sizes.value != []) && WholeBlocks(sizes.value)
  {
    var collected: seq<nat> := [];
    ghost var groups: seq<Group> := [];
    for k := 0 to |pieces|
      invariant |groups| == k && forall i :: 0 <= i < k ==> pieces[i] == Some(groups[i])
      invariant collected == Expand(groups)
    {
      if pieces[k].None? {
        CollectFails(pieces, k);
        return None;
      }
      var group := pieces[k].value;
      ExpandMore(groups, group);
      groups := groups + [group];
      collected := collected + Repeat(group.size, group.count);
    }
    CollectAll(pieces, groups);
    ExpandWhole(groups);
    sizes := Some(collected);
  }

  lemma CollectAll<T>(results: seq<Option<T>>, values: seq<T>)
    requires |results| == |values| && forall i :: 0 <= i < |results| ==> results[i] == Some(values[i])
    ensures Collect(results) == Some(values)
  {
    CollectIff(results);
    var collected := Collect(results).value;
    assert forall i :: 0 <= i < |values| ==> results[i] == Some(collected[i]);
    assert collected == values;
  }

  lemma CollectFails<T>(results: seq<Option<T>>, k: nat)
    requires k < |results| && results[k].None?
    ensures Collect(results).None?
  {
    CollectIff(results);
  }

  function Render(g: Group): string { D.Print(g.count) + ['x'] + D.Print(g.size) }

  function RenderAll(groups: seq<Group>): string
    requires groups != []
  {
    if |groups| == 1 then Render(groups[0]) else Render(groups[0]) + [','] + RenderAll(groups[1..])
  }

  lemma RenderedGroup(g: Group)
    requires ValidGroup(g)
    ensures ParseGroup(Render(g)) == Some(g) && ',' !in Render(g)
  {
    assert 'x' !in D.Print(g.count) by {
      assert forall i :: 0 <= i < |D.Print(g.count)| ==> D.IsDigit(D.Print(g.count)[i]);
    }
    SplitAt(D.Print(g.count), D.Print(g.size), 'x');
    D.PrintParse(g.count, U64_MAX);
    D.PrintParse(g.size, U64_MAX);
  }

  function Pieces(groups: seq<Group>): (texts: seq<string>)
    ensures |texts| == |groups|
  {
    seq(|groups|, i requires 0 <= i < |groups| => Render(groups[i]))
  }

  lemma PiecesSplit(groups: seq<Group>)
    requires groups != []
    ensures Pieces(groups) == [Render(groups[0])] + Pieces(groups[1..])
  {
  }

  lemma NoComma(g: Group)
    requires ValidGroup(g)
    ensures ',' !in Render(g)
  {
    RenderedGroup(g);
  }

  lemma {:induction false} RenderedPieces(groups: seq<Group>)
    requires groups != [] && forall i :: 0 <= i < |groups| ==> ValidGroup(groups[i])
    ensures Split(RenderAll(groups), ',') == Pieces(groups)
  {
    NoComma(groups[0]);
    PiecesSplit(groups);
    if |groups| == 1 {
      SplitWhole(Render(groups[0]), ',');
    } else {
      SplitAt(Render(groups[0]), RenderAll(groups[1..]), ',');
      RenderedPieces(groups[1..]);
    }
  }

  /** Printing a list of valid groups and parsing it back yields the same groups. */
  lemma DatasetRoundTrip(groups: seq<Group>)
    requires groups != [] && forall i :: 0 <= i < |groups| ==> ValidGroup(groups[i])
    ensures ParseGroups(Split(RenderAll(groups), ',')) == Some(groups)
  {
    RenderedPieces(groups);
    var texts := Split(RenderAll(groups), ',');
    forall i | 0 <= i < |groups|
      ensures ParsePieces(texts)[i] == Some(groups[i])
    {
      RenderedGroup(groups[i]);
    }
    CollectAll(ParsePieces(texts), groups);
  }

  // ---- Block numbering ----

  datatype BlockId = BlockId(obj: nat, block: nat)

  /** `counts[i]` is the number of blocks of object i. */
  function BlocksBefore(counts: seq<nat>, obj: nat): nat
    requires obj <= |counts|
  {
    if obj == 0 then 0 else BlocksBefore(counts, obj - 1) + counts[obj - 1]
  }

  predicate InDataset(counts: seq<nat>, b: BlockId) { b.obj < |counts| && b.block < counts[b.obj] }

  lemma {:induction false} BlocksBeforeMonotone(counts: seq<nat>, a: nat, b: nat)
    requires a <= b <= |counts|
    ensures BlocksBefore(counts, a) <= BlocksBefore(counts, b)
    decreases b
  {
    if a < b {
      BlocksBeforeMonotone(counts, a, b - 1);
    }
  }

  /** Different blocks have different numbers, so every number names exactly one block. */
  lemma GlobalInjective(counts: seq<nat>, a: BlockId, b: BlockId)
    requires InDataset(counts, a) && InDataset(counts, b)
    requires BlocksBefore(counts, a.obj) + a.block == BlocksBefore(counts, b.obj) + b.block
    ensures a == b
  {
    if a.obj < b.obj {
      BlocksBeforeMonotone(counts, a.obj + 1, b.obj);
    } else if b.obj < a.obj {
      BlocksBeforeMonotone(counts, b.obj + 1, a.obj);
    }
  }

  function BlockBelow(counts: seq<nat>, index: nat, n: nat): (b: BlockId)
    requires n <= |counts| && index < BlocksBefore(counts, n)
    ensures InDataset(counts, b) && BlocksBefore(counts, b.obj) + b.block == index
  {
    if index < BlocksBefore(counts, n - 1) then BlockBelow(counts, index, n - 1)
    else BlockId(n - 1, index - BlocksBefore(counts, n - 1))
  }

  /** The block with the number `index`; no other one has it, by `GlobalInjective`. */
  function BlockAt(counts: seq<nat>, index: nat): (b: BlockId)
    requires index < BlocksBefore(counts, |counts|)
    ensures InDataset(counts, b) && BlocksBefore(counts, b.obj) + b.block == index
  {
    BlockBelow(counts, index, |counts|)
  }

  /** The block with a given number when the objects' blocks are counted through: the inverse of
      (object, block) -> blocks of earlier objects + block. */
  method BlockFromGlobal(counts: seq<nat>, index: nat) returns (b: BlockId)
    requires index < BlocksBefore(counts, |counts|)
    ensures InDataset(counts, b) && BlocksBefore(counts, b.obj) + b.block == index
    ensures b == BlockAt(counts, index)
  {
    var rest, obj := index, 0;
    while obj < |counts|
      invariant 0 <= obj <= |counts| && BlocksBefore(counts, obj) + rest == index
    {
      if rest < counts[obj] {
        GlobalInjective(counts, BlockId(obj, rest), BlockAt(counts, index));
        return BlockId(obj, rest);
      }
      rest := rest - counts[obj];
      obj := obj + 1;
    }
    assert false;
  }
}
