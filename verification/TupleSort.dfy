/**
 * Quicksort and binary search on the rows of a flat table (utils/mymath.hpp, mytuple).
 */
module TupleSort {
  import opened Query
  import opened Table

  // ---- the lexicographic order on rows ----

  function Compare(x: Row, y: Row): int
    requires |x| == |y|
  {
    if x == [] then 0 else if x[0] < y[0] then -1 else if x[0] > y[0] then 1 else Compare(x[1..], y[1..])
  }

  lemma {:induction false} CompareFlips(x: Row, y: Row)
    requires |x| == |y|
    ensures Compare(y, x) == -Compare(x, y) && (Compare(x, y) == 0 <==> x == y)
  {
    if x != [] && x[0] == y[0] {
      CompareFlips(x[1..], y[1..]);
      assert x == [x[0]] + x[1..] && y == [y[0]] + y[1..];
    }
  }

  lemma {:induction false} CompareTrans(x: Row, y: Row, z: Row)
    requires |x| == |y| == |z| && Compare(x, y) <= 0 && Compare(y, z) <= 0
    ensures Compare(x, z) <= 0 && (Compare(x, z) == 0 ==> Compare(x, y) == 0 && Compare(y, z) == 0)
  {
    if x != [] && x[0] == y[0] == z[0] { CompareTrans(x[1..], y[1..], z[1..]); }
  }

  /** Rows from t on decide. */
  lemma {:induction false} CompareFrom(x: Row, y: Row, t: nat)
    requires |x| == |y| && t <= |x| && x[..t] == y[..t]
    ensures Compare(x, y) == Compare(x[t..], y[t..])
  {
    if t > 0 {
      assert x[0] == x[..t][0] && y[0] == y[..t][0];
      assert x[1..][..t - 1] == x[..t][1..] && y[1..][..t - 1] == y[..t][1..];
      CompareFrom(x[1..], y[1..], t - 1);
      assert x[1..][t - 1..] == x[t..] && y[1..][t - 1..] == y[t..];
    }
  }

  method CompareTuple(n: nat, a: array<Id>, i: nat, b: array<Id>, j: nat, ghost ra: seq<Row>, ghost rb: seq<Row>) returns (r: int)
    requires Width(n, ra) && Width(n, rb) && a[..] == Flat(ra) && b[..] == Flat(rb) && i < |ra| && j < |rb|
    ensures r == Compare(ra[i], rb[j])
  {
    hide Flat;
    for t := 0 to n
      invariant ra[i][..t] == rb[j][..t]
    {
      FlatAt(n, ra, i, t);
      FlatAt(n, rb, j, t);
      CompareFrom(ra[i], rb[j], t);
      assert i * n == n * i && j * n == n * j;
      assert a[i * n + t] == a[..][n * i + t] && b[j * n + t] == b[..][n * j + t];
      if a[i * n + t] < b[j * n + t] { return -1; }
      if a[i * n + t] > b[j * n + t] { return 1; }
    }
    CompareFrom(ra[i], rb[j], n);
    return 0;
  }

  // ---- exchanging rows in place ----

  function Swap(rows: seq<Row>, i: nat, j: nat): seq<Row>
    requires i < |rows| && j < |rows|
  {
    rows[i := rows[j]][j := rows[i]]
  }

  /** The first t cells of the ranges at x and y are exchanged. */
  function Cell(s: seq<Id>, x: nat, y: nat, t: nat, k: nat): Id
    requires k < |s| && x + t <= |s| && y + t <= |s|
  {
    if x <= k < x + t then s[k - x + y] else if y <= k < y + t then s[k - y + x] else s[k]
  }

  method SwapRanges(a: array<Id>, n: nat, x: nat, y: nat)
    requires x + n <= y && y + n <= a.Length
    modifies a
    ensures forall k :: 0 <= k < a.Length ==> a[k] == Cell(old(a[..]), x, y, n, k)
  {
    for t := 0 to n
      invariant forall k :: 0 <= k < a.Length ==> a[k] == Cell(old(a[..]), x, y, t, k)
    {
      a[x + t], a[y + t] := a[y + t], a[x + t];
    }
  }

  method SwapTuple(n: nat, a: array<Id>, i: nat, j: nat, ghost rows: seq<Row>)
    requires Width(n, rows) && a[..] == Flat(rows) && i < |rows| && j < |rows|
    modifies a
    ensures a[..] == Flat(Swap(rows, i, j)) && Width(n, Swap(rows, i, j))
  {
    hide Flat;
    if i == j {
      SwapSame(a, n, i, rows);
      return;
    }
    ghost var lo, hi := if i < j then i else j, if i < j then j else i;
    FlatParts(n, rows, lo, hi);
    assert i * n == n * i && j * n == n * j;
    if i < j { SwapRanges(a, n, i * n, j * n); } else { SwapRanges(a, n, j * n, i * n); }
    FlatSwapped(n, rows, lo, hi, a[..]);
    assert Swap(rows, i, j) == Swap(rows, lo, hi);
  }

  method SwapSame(a: array<Id>, n: nat, i: nat, ghost rows: seq<Row>)
    requires Width(n, rows) && a[..] == Flat(rows) && i < |rows|
    modifies a
    ensures a[..] == Flat(Swap(rows, i, i))
  {
    hide Flat;
    FlatRow(n, rows, i);
    assert i * n == n * i;
    assert Swap(rows, i, i) == rows;
    for t := 0 to n
      invariant a[..] == old(a[..])
    {
      a[i * n + t], a[i * n + t] := a[i * n + t], a[i * n + t];
    }
  }

  /** The vector around rows i and j. */
  lemma FlatParts(n: nat, rows: seq<Row>, i: nat, j: nat)
    requires Width(n, rows) && i < j < |rows|
    ensures Flat(rows) == Flat(rows[..i]) + rows[i] + Flat(rows[i + 1..j]) + rows[j] + Flat(rows[j + 1..])
    ensures |Flat(rows[..i])| == n * i && n * i + n + |Flat(rows[i + 1..j])| == n * j && n * i + n <= n * j
    ensures n * j + n <= |Flat(rows)|
  {
    hide Flat;
    var a, b, c := rows[..i], rows[i + 1..j], rows[j + 1..];
    FlatConcat(a + [rows[i]] + b + [rows[j]], c);
    FlatSnoc(a + [rows[i]] + b, rows[j]);
    FlatConcat(a + [rows[i]], b);
    FlatSnoc(a, rows[i]);
    assert rows == a + [rows[i]] + b + [rows[j]] + c;
    FlatLength(n, a);
    FlatLength(n, b);
    Spread(n, i, j);
  }

  lemma Spread(n: nat, i: nat, j: nat)
    requires i < j
    ensures i * n == n * i && n * i + n + (j - i - 1) * n == n * j && (j - i - 1) * n >= 0
  {
    var d := j - i - 1;
    assert j == i + 1 + d;
    assert n * (i + 1 + d) == n * i + n + n * d;
    assert n * d == d * n;
  }

  lemma FlatSwapped(n: nat, rows: seq<Row>, i: nat, j: nat, s: seq<Id>)
    requires Width(n, rows) && i < j < |rows| && |s| == |Flat(rows)| && n * i + n <= n * j && n * j + n <= |s|
    requires forall k :: 0 <= k < |s| ==> s[k] == Cell(Flat(rows), n * i, n * j, n, k)
    ensures s == Flat(Swap(rows, i, j)) && Width(n, Swap(rows, i, j))
  {
    hide Flat;
    FlatParts(n, rows, i, j);
    var rows' := Swap(rows, i, j);
    FlatParts(n, rows', i, j);
    assert rows'[..i] == rows[..i] && rows'[i + 1..j] == rows[i + 1..j] && rows'[j + 1..] == rows[j + 1..];
    Exchanged(Flat(rows), s, Flat(rows[..i]), rows[i], Flat(rows[i + 1..j]), rows[j], Flat(rows[j + 1..]), n);
  }

  lemma Exchanged(s: seq<Id>, s': seq<Id>, a: seq<Id>, x: Row, b: seq<Id>, y: Row, c: seq<Id>, n: nat)
    requires s == a + x + b + y + c && |x| == |y| == n && |s'| == |s|
    requires forall k :: 0 <= k < |s| ==> s'[k] == Cell(s, |a|, |a| + n + |b|, n, k)
    ensures s' == a + y + b + x + c
  {
    var r := a + y + b + x + c;
    forall k | 0 <= k < |s|
      ensures s'[k] == r[k]
    {
    }
  }

  // ---- quicksort ----

  ghost predicate SortedIn(rows: seq<Row>, b: nat, e: nat)
    requires b <= e <= |rows| && forall i :: 0 <= i < |rows| ==> |rows[i]| == |rows[0]|
  {
    forall p, q :: b <= p < q < e ==> Compare(rows[p], rows[q]) <= 0
  }

  /** Only the rows from b to e move, among themselves. */
  ghost predicate Moved(rows: seq<Row>, rows': seq<Row>, b: nat, e: nat) {
    && b <= e <= |rows| == |rows'|
    && rows'[..b] == rows[..b] && rows'[e..] == rows[e..]
    && multiset(rows'[b..e]) == multiset(rows[b..e])
  }

  lemma SwapMoves(rows: seq<Row>, i: nat, j: nat, b: nat, e: nat)
    requires b <= i < e <= |rows| && b <= j < e
    ensures Moved(rows, Swap(rows, i, j), b, e)
  {
    var s, s' := rows[b..e], Swap(rows, i, j)[b..e];
    assert s' == s[i - b := s[j - b]][j - b := s[i - b]];
  }

  lemma MovedTrans(x: seq<Row>, y: seq<Row>, z: seq<Row>, b: nat, e: nat)
    requires Moved(x, y, b, e) && Moved(y, z, b, e)
    ensures Moved(x, z, b, e)
  {
  }

  /** Moving rows within a part of the range is moving them within the range. */
  lemma MovedWider(x: seq<Row>, y: seq<Row>, b: nat, e: nat, lo: nat, hi: nat)
    requires Moved(x, y, lo, hi) && b <= lo <= hi <= e <= |x|
    ensures Moved(x, y, b, e)
  {
    assert x[b..e] == x[b..lo] + x[lo..hi] + x[hi..e];
    assert y[b..e] == y[b..lo] + y[lo..hi] + y[hi..e];
    assert y[..lo][b..] == x[..lo][b..] && y[b..lo] == y[..lo][b..] && x[b..lo] == x[..lo][b..];
    assert y[hi..e] == y[hi..][..e - hi] && x[hi..e] == x[hi..][..e - hi];
    assert y[..b] == y[..lo][..b] && x[..b] == x[..lo][..b];
    assert y[e..] == y[hi..][e - hi..] && x[e..] == x[hi..][e - hi..];
  }

  /** Rows in a range that was permuted were in it before. */
  lemma MovedMember(x: seq<Row>, y: seq<Row>, b: nat, e: nat, k: nat) returns (l: nat)
    requires Moved(x, y, b, e) && b <= k < e
    ensures b <= l < e && x[l] == y[k]
  {
    assert y[k] == y[b..e][k - b] && y[k] in multiset(y[b..e]);
    assert y[k] in x[b..e];
    var i :| 0 <= i < e - b && x[b..e][i] == y[k];
    l := b + i;
  }

  lemma MovedOutside(x: seq<Row>, y: seq<Row>, b: nat, e: nat, k: nat)
    requires Moved(x, y, b, e) && k < |x| && (k < b || k >= e)
    ensures y[k] == x[k]
  {
    if k < b { assert y[k] == y[..b][k]; } else { assert y[k] == y[e..][k - e] && x[k] == x[e..][k - e]; }
  }

  /** Where the partition loop has got to: the rows up to middle are smaller than the pivot, the
      others so far are not. */
  ghost predicate Parted(rows: seq<Row>, n: nat, begin: nat, middle: nat, iter: nat, pivot: Row) {
    && Width(n, rows) && |pivot| == n && begin <= middle < iter <= |rows|
    && rows[begin] == pivot
    && (forall k :: begin < k <= middle ==> Compare(rows[k], pivot) < 0)
    && forall k :: middle < k < iter ==> Compare(rows[k], pivot) >= 0
  }

  lemma PartedStep(rows: seq<Row>, n: nat, begin: nat, middle: nat, iter: nat, pivot: Row)
    requires Parted(rows, n, begin, middle, iter, pivot) && iter < |rows|
    ensures Compare(rows[iter], pivot) >= 0 ==> Parted(rows, n, begin, middle, iter + 1, pivot)
    ensures Compare(rows[iter], pivot) < 0 ==> Parted(Swap(rows, iter, middle + 1), n, begin, middle + 1, iter + 1, pivot)
    ensures |Swap(rows, iter, middle + 1)| == |rows|
  {
    hide Compare;
  }

  method Partition(n: nat, a: array<Id>, begin: nat, end: nat, ghost rows0: seq<Row>) returns (middle: nat, ghost rows: seq<Row>)
    requires Width(n, rows0) && a[..] == Flat(rows0) && begin + 1 < end <= |rows0|
    modifies a
    ensures Width(n, rows) && a[..] == Flat(rows) && Moved(rows0, rows, begin, end) && begin <= middle < end
    ensures forall k :: begin <= k < middle ==> Compare(rows[k], rows[middle]) < 0
    ensures forall k :: middle < k < end ==> Compare(rows[k], rows[middle]) >= 0
  {
    hide Flat, Moved, Compare, Parted, Swap;
    rows := rows0;
    middle := begin;
    ghost var pivot := rows[begin];
    Unmoved(rows0, begin, end);
    PartedStart(rows, n, begin);
    for iter := begin + 1 to end
      invariant Parted(rows, n, begin, middle, iter, pivot)
      invariant a[..] == Flat(rows) && Moved(rows0, rows, begin, end) && |rows| == |rows0|
    {
      PartedStep(rows, n, begin, middle, iter, pivot);
      PartedFacts(rows, n, begin, middle, iter, pivot);
      var c := CompareTuple(n, a, iter, a, begin, rows, rows);
      CompareRange(rows[iter], rows[begin]);
      if c == -1 {
        middle := middle + 1;
        SwapTuple(n, a, iter, middle, rows);
        SwapMoves(rows, iter, middle, begin, end);
        MovedTrans(rows0, rows, Swap(rows, iter, middle), begin, end);
        rows := Swap(rows, iter, middle);
      }
    }
    PartedFacts(rows, n, begin, middle, end, pivot);
    PartedEnd(rows, n, begin, middle, end, pivot);
    SwapTuple(n, a, begin, middle, rows);
    SwapMoves(rows, begin, middle, begin, end);
    MovedTrans(rows0, rows, Swap(rows, begin, middle), begin, end);
    rows := Swap(rows, begin, middle);
  }

  lemma PartedStart(rows: seq<Row>, n: nat, begin: nat)
    requires Width(n, rows) && begin < |rows|
    ensures Parted(rows, n, begin, begin, begin + 1, rows[begin])
  {
  }

  lemma PartedFacts(rows: seq<Row>, n: nat, begin: nat, middle: nat, iter: nat, pivot: Row)
    requires Parted(rows, n, begin, middle, iter, pivot)
    ensures Width(n, rows) && begin <= middle < iter <= |rows| && rows[begin] == pivot && |pivot| == n
  {
  }

  /** With the pivot put in its place. */
  lemma PartedEnd(rows: seq<Row>, n: nat, begin: nat, middle: nat, end: nat, pivot: Row)
    requires Parted(rows, n, begin, middle, end, pivot)
    ensures var r := Swap(rows, begin, middle);
      && Width(n, r) && |r| == |rows| && (forall k :: begin <= k < middle ==> Compare(r[k], r[middle]) < 0)
      && forall k :: middle < k < end ==> Compare(r[k], r[middle]) >= 0
  {
    hide Compare;
  }

  lemma Unmoved(rows: seq<Row>, b: nat, e: nat)
    requires b <= e <= |rows|
    ensures Moved(rows, rows, b, e)
  {
  }

  lemma {:induction false} CompareRange(x: Row, y: Row)
    requires |x| == |y|
    ensures -1 <= Compare(x, y) <= 1
  {
    if x != [] { CompareRange(x[1..], y[1..]); }
  }

  method QsortTupleRecursive(n: nat, a: array<Id>, begin: nat, end: nat, ghost rows0: seq<Row>) returns (ghost rows: seq<Row>)
    requires Width(n, rows0) && a[..] == Flat(rows0) && end <= |rows0| && begin <= |rows0|
    modifies a
    ensures Width(n, rows) && a[..] == Flat(rows)
    ensures if begin <= end then Moved(rows0, rows, begin, end) && SortedIn(rows, begin, end) else rows == rows0
    decreases end - begin
  {
    hide Flat, Moved, Compare;
    rows := rows0;
    if begin + 1 >= end {
      if begin <= end { Unmoved(rows, begin, end); }
      return;
    }
    var middle;
    ghost var parted, left;
    middle, parted := Partition(n, a, begin, end, rows0);
    MovedSize(rows0, parted, begin, end);
    left := QsortTupleRecursive(n, a, begin, middle, parted);
    MovedSize(parted, left, begin, middle);
    rows := QsortTupleRecursive(n, a, middle + 1, end, left);
    MovedSize(left, rows, middle + 1, end);
    MovedWider(parted, left, begin, end, begin, middle);
    MovedWider(left, rows, begin, end, middle + 1, end);
    MovedTrans(rows0, parted, left, begin, end);
    MovedTrans(rows0, left, rows, begin, end);
    Combined(n, parted, left, rows, begin, middle, end);
  }

  lemma MovedSize(x: seq<Row>, y: seq<Row>, b: nat, e: nat)
    requires Moved(x, y, b, e)
    ensures |x| == |y|
  {
  }

  /** Both sides sorted, around the pivot: all sorted. */
  lemma Combined(n: nat, parted: seq<Row>, left: seq<Row>, rows: seq<Row>, begin: nat, middle: nat, end: nat)
    requires Width(n, parted) && Width(n, left) && Width(n, rows) && begin <= middle < end <= |parted|
    requires forall k :: begin <= k < middle ==> Compare(parted[k], parted[middle]) < 0
    requires forall k :: middle < k < end ==> Compare(parted[k], parted[middle]) >= 0
    requires Moved(parted, left, begin, middle) && Moved(left, rows, middle + 1, end) && |left| == |rows| == |parted|
    requires SortedIn(left, begin, middle) && SortedIn(rows, middle + 1, end)
    ensures SortedIn(rows, begin, end)
  {
    hide Moved, Compare;
    var pivot := parted[middle];
    MovedOutside(parted, left, begin, middle, middle);
    MovedOutside(left, rows, middle + 1, end, middle);
    forall k | begin <= k < middle
      ensures rows[k] == left[k] && Compare(rows[k], pivot) <= 0
    {
      MovedOutside(left, rows, middle + 1, end, k);
      var l := MovedMember(parted, left, begin, middle, k);
    }
    forall k | middle < k < end
      ensures Compare(pivot, rows[k]) <= 0
    {
      var l := MovedMember(left, rows, middle + 1, end, k);
      MovedOutside(parted, left, begin, middle, l);
      CompareFlips(parted[l], pivot);
    }
    forall p, q | begin <= p < q < end
      ensures Compare(rows[p], rows[q]) <= 0
    {
      if p < middle < q { CompareTrans(rows[p], pivot, rows[q]); }
    }
  }

  /** The rows of a flat table, sorted. */
  method QsortTuple(n: nat, a: array<Id>, ghost rows0: seq<Row>) returns (ghost rows: seq<Row>)
    requires n > 0 && Width(n, rows0) && a[..] == Flat(rows0)
    modifies a
    ensures Width(n, rows) && a[..] == Flat(rows)
    ensures multiset(rows) == multiset(rows0) && SortedIn(rows, 0, |rows|)
  {
    hide Flat, Compare;
    RowCount(n, rows0);
    rows := QsortTupleRecursive(n, a, 0, a.Length / n, rows0);
    assert rows[0..|rows|] == rows && rows0[0..|rows0|] == rows0;
  }

  // ---- binary search ----

  method BinarySearchTupleRecursive(n: nat, a: array<Id>, target: array<Id>, begin: nat, end: nat, ghost rows: seq<Row>, ghost x: Row)
    returns (found: bool)
    requires Width(n, rows) && a[..] == Flat(rows) && |x| == n && target[..] == Flat([x])
    requires begin <= end <= |rows| && SortedIn(rows, 0, |rows|)
    ensures found <==> exists k :: begin <= k < end && rows[k] == x
    decreases end - begin
  {
    hide Flat, Compare;
    if begin >= end { return false; }
    var middle := (begin + end) / 2;
    var r := CompareTuple(n, target, 0, a, middle, [x], rows);
    CompareFlips(x, rows[middle]);
    if r == 0 { return true; }
    if r < 0 {
      NotThere(n, rows, x, middle, true);
      found := BinarySearchTupleRecursive(n, a, target, begin, middle, rows, x);
    } else {
      NotThere(n, rows, x, middle, false);
      found := BinarySearchTupleRecursive(n, a, target, middle + 1, end, rows, x);
    }
  }

  /** A row smaller than the middle one is not above it, a larger one not below. */
  lemma NotThere(n: nat, rows: seq<Row>, x: Row, middle: nat, smaller: bool)
    requires Width(n, rows) && |x| == n && SortedIn(rows, 0, |rows|) && middle < |rows|
    requires if smaller then Compare(x, rows[middle]) < 0 else Compare(x, rows[middle]) > 0
    ensures forall k :: 0 <= k < |rows| && rows[k] == x ==> if smaller then k < middle else k > middle
  {
    hide Compare;
    forall k | 0 <= k < |rows| && rows[k] == x
      ensures if smaller then k < middle else k > middle
    {
      CompareFlips(x, rows[middle]);
      CompareFlips(x, x);
    }
  }

  /** Whether a sorted table has the row. */
  method BinarySearchTuple(n: nat, a: array<Id>, target: array<Id>, ghost rows: seq<Row>, ghost x: Row) returns (found: bool)
    requires n > 0 && Width(n, rows) && a[..] == Flat(rows) && |x| == n && target[..] == Flat([x]) && SortedIn(rows, 0, |rows|)
    ensures found <==> x in rows
  {
    hide Flat, Compare;
    RowCount(n, rows);
    found := BinarySearchTupleRecursive(n, a, target, 0, a.Length / n, rows, x);
  }
}
