/** Medians and worst values of repeated measurements. Measurements are real numbers. */
module Samples {
  import opened Common

  predicate Ascending(s: seq<real>) { forall i, j :: 0 <= i < j < |s| ==> s[i] <= s[j] }

  function Insert(s: seq<real>, x: real): (r: seq<real>)
    requires Ascending(s)
    ensures |r| == |s| + 1 && Ascending(r)
    ensures forall i :: 0 <= i < |r| ==> r[i] == x || r[i] in s
  {
    if s == [] || x <= s[0] then [x] + s
    else [s[0]] + Insert(s[1..], x)
  }

  lemma {:induction false} InsertHolds(s: seq<real>, x: real)
    requires Ascending(s)
    ensures multiset(Insert(s, x)) == multiset(s) + multiset{x}
  {
    if s != [] && x > s[0] {
      InsertHolds(s[1..], x);
      assert s == [s[0]] + s[1..];
    }
  }

  /** The library sort; its result is unique by `AscendingUnique`. */
  function Sort(s: seq<real>): (r: seq<real>)
    ensures Ascending(r) && multiset(r) == multiset(s) && |r| == |s|
  {
    if s == [] then []
    else
      var rest := Sort(s[1..]);
      assert s == [s[0]] + s[1..];
      InsertHolds(rest, s[0]);
      Insert(rest, s[0])
  }

  lemma FirstsAgree(s: seq<real>, t: seq<real>)
    requires s != [] && t != [] && Ascending(s) && Ascending(t) && multiset(s) == multiset(t)
    ensures s[0] == t[0]
  {
    assert s[0] in multiset(t) && t[0] in multiset(s);
    var i :| 0 <= i < |t| && t[i] == s[0];
    var j :| 0 <= j < |s| && s[j] == t[0];
  }

  lemma RestMultiset(s: seq<real>)
    requires s != []
    ensures multiset(s[1..]) == multiset(s) - multiset{s[0]}
  {
    assert s == [s[0]] + s[1..];
  }

  lemma SameLength(s: seq<real>, t: seq<real>)
    requires multiset(s) == multiset(t)
    ensures |s| == |t|
  {
    assert |multiset(s)| == |s| && |multiset(t)| == |t|;
  }

  lemma {:induction false} AscendingUnique(s: seq<real>, t: seq<real>)
    requires Ascending(s) && Ascending(t) && multiset(s) == multiset(t)
    ensures s == t
  {
    SameLength(s, t);
    if s != [] {
      FirstsAgree(s, t);
      RestMultiset(s);
      RestMultiset(t);
      AscendingUnique(s[1..], t[1..]);
      assert s == [s[0]] + s[1..] && t == [t[0]] + t[1..];
    }
  }

  function Middle(s: seq<real>): real
    requires s != []
  {
    var n := |s|;
    if n % 2 == 1 then s[n / 2] else (s[n / 2 - 1] + s[n / 2]) / 2.0
  }

  function MedianOf(s: seq<real>): real
    requires s != []
  {
    Middle(Sort(s))
  }

  lemma MedianPermuted(s: seq<real>, t: seq<real>)
    requires s != [] && t != [] && multiset(s) == multiset(t)
    ensures MedianOf(s) == MedianOf(t)
  {
    AscendingUnique(Sort(s), Sort(t));
  }

  method SortInPlace(values: array<real>)
    modifies values
    ensures values[..] == Sort(old(values[..]))
  {
    var sorted := Sort(values[..]);
    forall i | 0 <= i < values.Length {
      values[i] := sorted[i];
    }
  }

  /** Sorts the values in place; None stands for the NaN of an empty slice. */
  method Median(values: array<real>) returns (m: Option<real>)
    modifies values
    ensures values[..] == Sort(old(values[..]))
    ensures m == if values.Length == 0 then None else Some(MedianOf(old(values[..])))
  {
    SortInPlace(values);
    m := MiddleValue(values);
  }

  method MiddleValue(values: array<real>) returns (m: Option<real>)
    ensures m == if values.Length == 0 then None else Some(Middle(values[..]))
  {
    var n := values.Length;
    if n == 0 {
      m := None;
    } else if n % 2 == 1 {
      m := Some(values[n / 2]);
    } else {
      m := Some((values[n / 2 - 1] + values[n / 2]) / 2.0);
    }
  }

  // ---- At most half of the values lie on either side of the median ----

  /** The values below `x` (`below`) or above it. */
  function Side(s: seq<real>, x: real, below: bool): seq<real> {
    if s == [] then []
    else
      var last := s[|s| - 1];
      Side(s[..|s| - 1], x, below) + if (if below then last < x else last > x) then [last] else []
  }

  lemma AppendCount<T>(s: seq<T>, x: T, v: T)
    ensures multiset(s + [x])[v] == multiset(s)[v] + if v == x then 1 else 0
  {
  }

  lemma {:induction false} SideCount(s: seq<real>, x: real, below: bool, v: real)
    ensures multiset(Side(s, x, below))[v] == if (if below then v < x else v > x) then multiset(s)[v] else 0
  {
    if s != [] {
      var last := |s| - 1;
      SideCount(s[..last], x, below, v);
      AppendCount(s[..last], s[last], v);
      AppendCount(Side(s[..last], x, below), s[last], v);
      assert s == s[..last] + [s[last]];
    }
  }

  lemma SidePermuted(s: seq<real>, t: seq<real>, x: real, below: bool)
    requires multiset(s) == multiset(t)
    ensures |Side(s, x, below)| == |Side(t, x, below)|
  {
    forall v: real
      ensures multiset(Side(s, x, below))[v] == multiset(Side(t, x, below))[v]
    {
      SideCount(s, x, below, v);
      SideCount(t, x, below, v);
    }
    assert multiset(Side(s, x, below)) == multiset(Side(t, x, below));
    assert |multiset(Side(s, x, below))| == |Side(s, x, below)| && |multiset(Side(t, x, below))| == |Side(t, x, below)|;
  }

  lemma {:induction false} SideBound(s: seq<real>, x: real, k: nat, below: bool)
    requires k <= |s|
    requires below ==> forall i :: k <= i < |s| ==> s[i] >= x
    requires !below ==> forall i :: 0 <= i < k ==> s[i] <= x
    ensures |Side(s, x, below)| <= if below then k else |s| - k
  {
    if s != [] {
      SideBound(s[..|s| - 1], x, if k < |s| then k else k - 1, below);
    }
  }

  lemma MiddleSplits(s: seq<real>)
    requires s != [] && Ascending(s)
    ensures forall i :: |s| / 2 <= i < |s| ==> s[i] >= Middle(s)
    ensures forall i :: 0 <= i < (|s| + 1) / 2 ==> s[i] <= Middle(s)
  {
    var n := |s|;
    assert n % 2 == 0 ==> s[n / 2 - 1] <= s[n / 2];
    forall i | 0 <= i < n
      ensures i >= n / 2 ==> s[i] >= s[n / 2]
      ensures i < n / 2 ==> s[i] <= s[n / 2 - 1]
    {
    }
  }

  lemma MedianBalanced(s: seq<real>)
    requires s != []
    ensures 2 * |Side(s, MedianOf(s), true)| <= |s| && 2 * |Side(s, MedianOf(s), false)| <= |s|
  {
    var sorted, n := Sort(s), |s|;
    var m := Middle(sorted);
    MiddleSplits(sorted);
    SidePermuted(s, sorted, m, true);
    SidePermuted(s, sorted, m, false);
    SideBound(sorted, m, n / 2, true);
    SideBound(sorted, m, (n + 1) / 2, false);
  }

  // ---- The worst rate, folded from zero ----

  function WorstRate(s: seq<real>): (r: real)
    ensures r >= 0.0 && (r == 0.0 || r in s)
    ensures forall x :: x in s ==> x <= r
  {
    if s == [] then 0.0
    else
      var last := s[|s| - 1];
      var before := WorstRate(s[..|s| - 1]);
      assert s == s[..|s| - 1] + [last];
      if before < last then last else before
  }

  lemma WorstRatePermuted(s: seq<real>, t: seq<real>)
    requires multiset(s) == multiset(t)
    ensures WorstRate(s) == WorstRate(t)
  {
    assert forall x :: x in s <==> x in multiset(s);
    assert forall x :: x in t <==> x in multiset(t);
  }
}
