/** Cursor pagination of the diagnostics endpoints, and the text truncation their cursors go through. */
module Pagination {
  import opened ByteOrder
  import opened Common

  const DEFAULT_PAGE_LIMIT: nat := 100
  const MAX_PAGE_LIMIT: nat := 256

  /** An absent limit means 100; anything outside 1..256 is refused. */
  function PageLimit(limit: Option<nat>): (r: Option<nat>)
    ensures r.Some? ==> 1 <= r.value <= MAX_PAGE_LIMIT && r == if limit.Some? then limit else Some(100)
    ensures r.None? <==> limit.Some? && !(1 <= limit.value <= MAX_PAGE_LIMIT)
  {
    var n := if limit.Some? then limit.value else DEFAULT_PAGE_LIMIT;
    if 1 <= n <= MAX_PAGE_LIMIT then Some(n) else None
  }

  // ---- Pages over any ordered key ----

  /** `matches`: the record passes the endpoint's own filter (status, CID). */
  datatype Record<K> = Record(key: K, matches: bool)

  type Order<!K> = (K, K) -> bool

  ghost predicate StrictOrder<K(!new)>(less: Order<K>) {
    && (forall a: K :: !less(a, a))
    && (forall a: K, b: K :: less(a, b) || less(b, a) || a == b)
    && (forall a: K, b: K, c: K :: less(a, b) && less(b, c) ==> less(a, c))
  }

  predicate Beyond<K>(less: Order<K>, after: Option<K>, key: K) { after.None? || less(after.value, key) }

  function Select<K>(less: Order<K>, records: seq<Record<K>>, after: Option<K>): seq<Record<K>> {
    if records == [] then []
    else
      (if records[0].matches && Beyond(less, after, records[0].key) then [records[0]] else [])
      + Select(less, records[1..], after)
  }

  datatype Page<K> = Page(entries: seq<Record<K>>, next: Option<K>)

  /** One request. `cursor` is how the last key of a page is shown to the client. */
  function PageAfter<K>(less: Order<K>, cursor: K -> K, records: seq<Record<K>>, limit: nat, after: Option<K>)
      : (p: Page<K>)
    requires limit > 0
    ensures |p.entries| <= limit
  {
    var selected := Select(less, records, after);
    if |selected| > limit then Page(selected[..limit], Some(cursor(selected[limit - 1].key)))
    else Page(selected, None)
  }

  /** Following `next` from page to page; None if the walk has not ended after `pages` pages. */
  function Walk<K>(serve: Option<K> -> Page<K>, after: Option<K>, pages: nat): Option<seq<Record<K>>>
    decreases pages
  {
    if pages == 0 then None
    else
      var page := serve(after);
      if page.next.None? then Some(page.entries)
      else
        var rest := Walk(serve, page.next, pages - 1);
        if rest.None? then None else Some(page.entries + rest.value)
  }

  function Matching<K(!new)>(records: seq<Record<K>>): (m: seq<Record<K>>)
    ensures forall r :: r in m <==> r in records && r.matches
  {
    if records == [] then []
    else
      assert records == [records[0]] + records[1..];
      (if records[0].matches then [records[0]] else []) + Matching(records[1..])
  }

  predicate Increasing<K>(less: Order<K>, records: seq<Record<K>>) {
    forall i, j :: 0 <= i < j < |records| ==> less(records[i].key, records[j].key)
  }

  lemma {:induction false} MatchingIncreasing<K(!new)>(less: Order<K>, records: seq<Record<K>>)
    requires Increasing(less, records)
    ensures Increasing(less, Matching(records))
  {
    if records != [] {
      MatchingIncreasing(less, records[1..]);
      assert forall r :: r in records[1..] ==> less(records[0].key, r.key);
    }
  }

  lemma {:induction false} SelectAll<K(!new)>(less: Order<K>, records: seq<Record<K>>)
    ensures Select(less, records, None) == Matching(records)
  {
    if records != [] {
      SelectAll(less, records[1..]);
    }
  }

  /** A cursor that lies before the matching record `j` and not before any earlier one selects the rest from `j` on. */
  lemma {:induction false} SelectSuffix<K(!new)>(less: Order<K>, records: seq<Record<K>>, c: K, j: nat)
    requires j <= |Matching(records)|
    requires forall i :: 0 <= i < |Matching(records)| ==> (less(c, Matching(records)[i].key) <==> i >= j)
    ensures Select(less, records, Some(c)) == Matching(records)[j..]
  {
    if records != [] {
      var m, rest := Matching(records), Matching(records[1..]);
      if records[0].matches {
        assert m == [records[0]] + rest;
        assert forall i :: 0 <= i < |rest| ==> rest[i] == m[i + 1];
        SelectSuffix(less, records[1..], c, if j == 0 then 0 else j - 1);
        assert m[0] == records[0];
      } else {
        assert m == rest;
        SelectSuffix(less, records[1..], c, j);
      }
    }
  }

  /** The key at the end of the full page that starts at `start` is shown unshortened, or the page is the last one. */
  predicate PageEndsShown<K(==)>(cursor: K -> K, m: seq<Record<K>>, limit: nat, start: nat)
    requires limit > 0
    decreases |m| - start
  {
    start + limit >= |m| ||
    (cursor(m[start + limit - 1].key) == m[start + limit - 1].key && PageEndsShown(cursor, m, limit, start + limit))
  }

  /** Number of pages needed from `start` on. */
  function PagesFrom(total: nat, limit: nat, start: nat): nat
    requires limit > 0
    decreases total - start
  {
    if start + limit >= total then 1 else 1 + PagesFrom(total, limit, start + limit)
  }

  /** The page of `m` that starts at `start`. */
  function Expected<K>(m: seq<Record<K>>, cursor: K -> K, limit: nat, start: nat): Page<K>
    requires limit > 0 && start <= |m|
  {
    if start + limit >= |m| then Page(m[start..], None)
    else Page(m[start..start + limit], Some(cursor(m[start + limit - 1].key)))
  }

  lemma PageFrom<K(!new)>(
      less: Order<K>, cursor: K -> K, records: seq<Record<K>>, limit: nat, after: Option<K>, start: nat)
    requires limit > 0 && start <= |Matching(records)| && Select(less, records, after) == Matching(records)[start..]
    ensures PageAfter(less, cursor, records, limit, after) == Expected(Matching(records), cursor, limit, start)
  {
  }

  /** After an unshortened cursor the next page starts right behind it. */
  lemma ShownCursor<K(!new)>(less: Order<K>, records: seq<Record<K>>, e: nat)
    requires StrictOrder(less) && Increasing(less, records) && e < |Matching(records)|
    ensures Select(less, records, Some(Matching(records)[e].key)) == Matching(records)[e + 1..]
  {
    var m := Matching(records);
    MatchingIncreasing(less, records);
    forall i | 0 <= i < |m|
      ensures less(m[e].key, m[i].key) <==> i >= e + 1
    {
      if i < e {
        assert less(m[i].key, m[e].key);
      }
    }
    SelectSuffix(less, records, m[e].key, e + 1);
  }

  /** After a cursor that sorts before the key it came from, that record is selected again. */
  lemma {:induction false} ShortenedCursor<K(!new)>(less: Order<K>, records: seq<Record<K>>, c: K, r: Record<K>)
    requires r in records && r.matches && less(c, r.key)
    ensures r in Select(less, records, Some(c))
  {
    if records[0] != r {
      assert records == [records[0]] + records[1..];
      ShortenedCursor(less, records[1..], c, r);
    }
  }

  lemma {:induction false} SelectIncreasing<K(!new)>(less: Order<K>, records: seq<Record<K>>, after: Option<K>)
    requires Increasing(less, records)
    ensures Increasing(less, Select(less, records, after))
    ensures forall r :: r in Select(less, records, after) ==> r in records
  {
    if records != [] {
      SelectIncreasing(less, records[1..], after);
      assert records == [records[0]] + records[1..];
      assert forall r :: r in records[1..] ==> less(records[0].key, r.key);
    }
  }

  lemma JoinSlices<T>(m: seq<T>, a: nat, b: nat)
    requires a <= b <= |m|
    ensures m[a..b] + m[b..] == m[a..]
  {
  }

  lemma OnlyContinuation<T>(m: seq<T>, a: nat, b: nat, rest: seq<T>)
    requires a <= b <= |m|
    ensures m[a..b] + rest == m[a..] <==> rest == m[b..]
  {
    JoinSlices(m, a, b);
    assert (m[a..b] + rest)[b - a..] == rest;
  }

  /** Continuing from the key of record `e` serves what follows it. */
  ghost predicate Resumes<K>(serve: Option<K> -> Page<K>, cursor: K -> K, m: seq<Record<K>>, limit: nat, e: nat)
    requires limit > 0
  {
    e < |m| ==> serve(Some(m[e].key)) == Expected(m, cursor, limit, e + 1)
  }

  lemma {:induction false} WalkCompletes<K(!new)>(
      serve: Option<K> -> Page<K>, cursor: K -> K, m: seq<Record<K>>, limit: nat, after: Option<K>, start: nat)
    requires limit > 0 && start <= |m| && serve(after) == Expected(m, cursor, limit, start)
    requires forall e: nat :: Resumes(serve, cursor, m, limit, e)
    requires PageEndsShown(cursor, m, limit, start)
    ensures Walk(serve, after, PagesFrom(|m|, limit, start)) == Some(m[start..])
    decreases |m| - start
  {
    if start + limit < |m| {
      var e := start + limit - 1;
      assert Resumes(serve, cursor, m, limit, e);
      WalkCompletes(serve, cursor, m, limit, Some(m[e].key), start + limit);
      JoinSlices(m, start, start + limit);
    }
  }

  /** A cursor that sorts before record `e` leads to a page that does not start with the record after `e`. */
  ghost predicate Backtracks<K>(serve: Option<K> -> Page<K>, less: Order<K>, m: seq<Record<K>>, c: K, e: nat) {
    e + 1 < |m| && less(c, m[e].key) ==>
      serve(Some(c)).entries != [] && serve(Some(c)).entries[0] != m[e + 1]
  }

  lemma {:induction false} WalkRepeats<K(!new)>(
      serve: Option<K> -> Page<K>, less: Order<K>, cursor: K -> K, m: seq<Record<K>>, limit: nat,
      after: Option<K>, start: nat, pages: nat)
    requires limit > 0 && start <= |m| && serve(after) == Expected(m, cursor, limit, start)
    requires forall e: nat :: Resumes(serve, cursor, m, limit, e)
    requires forall c: K, e: nat :: Backtracks(serve, less, m, c, e)
    requires forall k: K :: cursor(k) == k || less(cursor(k), k)
    requires !PageEndsShown(cursor, m, limit, start)
    ensures Walk(serve, after, pages) != Some(m[start..])
    decreases pages
  {
    if pages > 0 {
      var e := start + limit - 1;
      var next := cursor(m[e].key);
      var rest := Walk(serve, Some(next), pages - 1);
      if rest.Some? {
        if next == m[e].key {
          assert Resumes(serve, cursor, m, limit, e);
          WalkRepeats(serve, less, cursor, m, limit, Some(next), start + limit, pages - 1);
        } else {
          assert Backtracks(serve, less, m, next, e);
          assert rest.value[0] == serve(Some(next)).entries[0];
        }
        OnlyContinuation(m, start, start + limit, rest.value);
      }
    }
  }

  /** After a shortened cursor the page starts no later than the record the cursor came from. */
  lemma ShortenedCursorBacktracks<K(!new)>(
      less: Order<K>, cursor: K -> K, records: seq<Record<K>>, limit: nat, c: K, e: nat)
    requires limit > 0 && StrictOrder(less) && Increasing(less, records) && e + 1 < |Matching(records)|
    requires less(c, Matching(records)[e].key)
    ensures var entries := PageAfter(less, cursor, records, limit, Some(c)).entries;
            entries != [] && entries[0] != Matching(records)[e + 1]
  {
    var m, selected := Matching(records), Select(less, records, Some(c));
    assert m[e] in m;
    ShortenedCursor(less, records, c, m[e]);
    SelectIncreasing(less, records, Some(c));
    MatchingIncreasing(less, records);
    var i :| 0 <= i < |selected| && selected[i] == m[e];
    assert less(m[e].key, m[e + 1].key);
    assert selected[0] != m[e + 1] by {
      assert i == 0 || less(selected[0].key, selected[i].key);
    }
  }

  /** An endpoint over an unchanged record set. */
  function Endpoint<K>(less: Order<K>, cursor: K -> K, records: seq<Record<K>>, limit: nat): Option<K> -> Page<K>
    requires limit > 0
  {
    (after: Option<K>) => PageAfter(less, cursor, records, limit, after)
  }

  /** The client's walk ends after visiting exactly the records of `m`, each once, in order. */
  ghost predicate Visits<K>(serve: Option<K> -> Page<K>, m: seq<Record<K>>) {
    exists pages: nat :: Walk(serve, None, pages) == Some(m)
  }

  /** The walk visits every matching record exactly once, in order, and ends, if and only if no key at the end of a page
      that is not the last one is shortened by the cursor. */
  lemma WalkIff<K(!new)>(less: Order<K>, cursor: K -> K, records: seq<Record<K>>, limit: nat)
    requires limit > 0 && StrictOrder(less) && Increasing(less, records)
    requires forall k: K :: cursor(k) == k || less(cursor(k), k)
    ensures Visits(Endpoint(less, cursor, records, limit), Matching(records))
            <==> PageEndsShown(cursor, Matching(records), limit, 0)
  {
    var m, serve := Matching(records), Endpoint(less, cursor, records, limit);
    SelectAll(less, records);
    assert m[0..] == m;
    PageFrom(less, cursor, records, limit, None, 0);
    forall e: nat
      ensures Resumes(serve, cursor, m, limit, e)
    {
      if e < |m| {
        ShownCursor(less, records, e);
        PageFrom(less, cursor, records, limit, Some(m[e].key), e + 1);
      }
    }
    if PageEndsShown(cursor, m, limit, 0) {
      WalkCompletes(serve, cursor, m, limit, None, 0);
    } else {
      forall c: K, e: nat
        ensures Backtracks(serve, less, m, c, e)
      {
        if e + 1 < |m| && less(c, m[e].key) {
          ShortenedCursorBacktracks(less, cursor, records, limit, c, e);
        }
      }
      forall pages: nat
        ensures Walk(serve, None, pages) != Some(m)
      {
        WalkRepeats(serve, less, cursor, m, limit, None, 0, pages);
      }
    }
  }

  // ---- Repair and read-resolution records: sequence numbers shown as they are ----

  function SequenceEndpoint(records: seq<Record<nat>>, limit: nat): Option<nat> -> Page<nat>
    requires limit > 0
  {
    Endpoint((a: nat, b: nat) => a < b, (k: nat) => k, records, limit)
  }

  lemma {:induction false} IdentityShows<K>(cursor: K -> K, m: seq<Record<K>>, limit: nat, start: nat)
    requires limit > 0 && forall r :: r in m ==> cursor(r.key) == r.key
    ensures PageEndsShown(cursor, m, limit, start)
    decreases |m| - start
  {
    if start + limit < |m| {
      IdentityShows(cursor, m, limit, start + limit);
    }
  }

  lemma SequenceWalkVisitsAll(records: seq<Record<nat>>, limit: nat)
    requires limit > 0 && forall i, j :: 0 <= i < j < |records| ==> records[i].key < records[j].key
    ensures Visits(SequenceEndpoint(records, limit), Matching(records))
  {
    var less, cursor := (a: nat, b: nat) => a < b, (k: nat) => k;
    IdentityShows(cursor, Matching(records), limit, 0);
    WalkIff(less, cursor, records, limit);
  }

  // ---- Publication intents: ids shortened to 256 bytes ----

  predicate CharBoundary(value: Text, i: nat) {
    i == 0 || i == |value| || (i < |value| && !(0x80 <= value[i] < 0xC0))
  }

  function BoundaryAtOrBelow(value: Text, end: nat): (r: nat)
    ensures r <= end && CharBoundary(value, r)
    ensures forall i :: r < i <= end ==> !CharBoundary(value, i)
  {
    if CharBoundary(value, end) then end else BoundaryAtOrBelow(value, end - 1)
  }

  function BoundedText(value: Text, maxBytes: nat): (r: Text)
    ensures r <= value && |r| <= maxBytes && CharBoundary(value, |r|)
    ensures forall p: Text :: p <= value && |p| <= maxBytes && CharBoundary(value, |p|) ==> p <= r
  {
    if |value| <= maxBytes then value else value[..BoundaryAtOrBelow(value, maxBytes)]
  }

  /** The in-place boundary search computes the longest prefix that fits and ends between two characters. */
  method TruncateText(value: Text, maxBytes: nat) returns (r: Text)
    ensures r == BoundedText(value, maxBytes)
  {
    if |value| <= maxBytes {
      return value;
    }
    var end: nat := maxBytes;
    while end > 0 && !CharBoundary(value, end)
      invariant end <= maxBytes && BoundaryAtOrBelow(value, end) == BoundaryAtOrBelow(value, maxBytes)
    {
      end := end - 1;
    }
    r := value[..end];
  }

  predicate BoundaryWithinFour(value: Text, i: nat) {
    exists j :: i <= j < i + 4 && CharBoundary(value, j)
  }

  /** In UTF-8 no four continuation bytes follow one another, so at most three bytes of the budget are lost. */
  lemma TruncationLosesThreeBytes(value: Text, maxBytes: nat)
    requires |value| > maxBytes
    requires forall i :: 0 <= i <= |value| - 4 ==> BoundaryWithinFour(value, i)
    ensures |BoundedText(value, maxBytes)| >= maxBytes - 3
  {
    if maxBytes >= 4 {
      assert BoundaryWithinFour(value, maxBytes - 3);
    }
  }

  const MAX_INTENT_CURSOR: nat := 256

  function IntentEndpoint(records: seq<Record<Text>>, limit: nat): Option<Text> -> Page<Text>
    requires limit > 0
  {
    Endpoint(Less, (id: Text) => BoundedText(id, MAX_INTENT_CURSOR), records, limit)
  }

  lemma LessStrict()
    ensures StrictOrder(Less)
  {
    forall a: Text, b: Text
      ensures !Less(a, a) && (Less(a, b) || Less(b, a) || a == b)
    {
      LessIrreflexive(a);
      LessTotal(a, b);
    }
    forall a: Text, b: Text, c: Text | Less(a, b) && Less(b, c)
      ensures Less(a, c)
    {
      LessTransitive(a, b, c);
    }
  }

  /** The id that ends a page that is not the last one fits the cursor. */
  predicate PageEndIdsFit(m: seq<Record<Text>>, limit: nat, start: nat)
    requires limit > 0
    decreases |m| - start
  {
    start + limit >= |m| ||
    (|m[start + limit - 1].key| <= MAX_INTENT_CURSOR && PageEndIdsFit(m, limit, start + limit))
  }

  lemma {:induction false} FitIsShown(m: seq<Record<Text>>, limit: nat, start: nat)
    requires limit > 0
    ensures PageEndIdsFit(m, limit, start)
            <==> PageEndsShown((id: Text) => BoundedText(id, MAX_INTENT_CURSOR), m, limit, start)
    decreases |m| - start
  {
    if start + limit < |m| {
      FitIsShown(m, limit, start + limit);
    }
  }

  /** Walking the intents visits every matching intent exactly once, in id order, and ends, if and only if every id that
      ends a page before the last one has at most 256 bytes. */
  lemma IntentWalkIff(records: seq<Record<Text>>, limit: nat)
    requires limit > 0 && Increasing(Less, records)
    ensures Visits(IntentEndpoint(records, limit), Matching(records)) <==> PageEndIdsFit(Matching(records), limit, 0)
  {
    var cursor := (id: Text) => BoundedText(id, MAX_INTENT_CURSOR);
    LessStrict();
    forall id: Text
      ensures cursor(id) == id || Less(cursor(id), id)
    {
      if |cursor(id)| < |id| {
        PrefixLess(id, |cursor(id)|);
      }
    }
    FitIsShown(Matching(records), limit, 0);
    WalkIff(Less, cursor, records, limit);
  }

  /** With ids of at most 256 bytes every walk is complete. */
  lemma ShortIdsVisitAll(records: seq<Record<Text>>, limit: nat)
    requires limit > 0 && Increasing(Less, records)
    requires forall r :: r in records ==> |r.key| <= MAX_INTENT_CURSOR
    ensures Visits(IntentEndpoint(records, limit), Matching(records))
  {
    IdentityShows((id: Text) => BoundedText(id, MAX_INTENT_CURSOR), Matching(records), limit, 0);
    FitIsShown(Matching(records), limit, 0);
    IntentWalkIff(records, limit);
  }

  lemma {:induction false} StuckWalk<K>(serve: Option<K> -> Page<K>, after: Option<K>, c: K, pages: nat)
    requires serve(after).next == Some(c) && serve(Some(c)).next == Some(c)
    ensures Walk(serve, after, pages).None?
    decreases pages
  {
    if pages > 0 {
      StuckWalk(serve, Some(c), c, pages - 1);
    }
  }

  lemma SelectPair<K>(less: Order<K>, a: Record<K>, b: Record<K>, after: Option<K>)
    requires a.matches && b.matches && Beyond(less, after, a.key) && Beyond(less, after, b.key)
    ensures Select(less, [a, b], after) == [a, b]
  {
    assert [a, b][1..] == [b] && [b][1..] == [];
    assert Select(less, [b], after) == [b];
  }

  /** Two intents whose ids agree on more than 256 bytes: a client that asks for one intent per page never gets
      past the first. */
  lemma LongIdsNeverEnd(prefix: Text, pages: nat)
    requires |prefix| > MAX_INTENT_CURSOR
    ensures var records := [Record(prefix, true), Record(prefix + [97], true)];
            Walk(IntentEndpoint(records, 1), None, pages).None?
  {
    var first, second := Record(prefix, true), Record(prefix + [97], true);
    var serve, c := IntentEndpoint([first, second], 1), BoundedText(prefix, MAX_INTENT_CURSOR);
    PrefixLess(prefix, |c|);
    assert second.key[..|c|] == c;
    PrefixLess(second.key, |c|);
    SelectPair(Less, first, second, None);
    SelectPair(Less, first, second, Some(c));
    assert serve(None).next == Some(c) && serve(Some(c)).next == Some(c);
    StuckWalk(serve, None, c, pages);
  }
}
