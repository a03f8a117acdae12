/**
 * Flat result tables (core/query.hpp): the rows of a table one after the other in a single
 * vector, with the number of columns as the stride.
 */
module Table {
  import opened Query

  /** The vector that holds the given rows. */
  function Flat(rows: seq<Row>): seq<Id> {
    if rows == [] then [] else Flat(rows[..|rows| - 1]) + rows[|rows| - 1]
  }

  ghost predicate Width(w: nat, rows: seq<Row>) {
    forall i :: 0 <= i < |rows| ==> |rows[i]| == w
  }

  lemma FlatSnoc(rows: seq<Row>, r: Row)
    ensures Flat(rows + [r]) == Flat(rows) + r
  {
    assert (rows + [r])[..|rows|] == rows;
  }

  lemma {:induction false} FlatConcat(a: seq<Row>, b: seq<Row>)
    ensures Flat(a + b) == Flat(a) + Flat(b)
    decreases |b|
  {
    if b == [] {
      assert a + b == a;
    } else {
      var b', r := b[..|b| - 1], b[|b| - 1];
      FlatConcat(a, b');
      assert a + b == (a + b') + [r] && b == b' + [r];
      FlatSnoc(a + b', r);
      FlatSnoc(b', r);
    }
  }

  lemma {:induction false} FlatLength(w: nat, rows: seq<Row>)
    requires Width(w, rows)
    ensures |Flat(rows)| == |rows| * w
  {
    if rows != [] {
      FlatLength(w, rows[..|rows| - 1]);
      assert |rows| * w == (|rows| - 1) * w + w;
    }
  }

  /** Cell (i, c) of the table is at position i * w + c of the vector. */
  lemma {:induction false} FlatAt(w: nat, rows: seq<Row>, i: nat, c: nat)
    requires Width(w, rows) && i < |rows| && c < w
    ensures w * i + c < |Flat(rows)| && Flat(rows)[w * i + c] == rows[i][c]
  {
    var front := rows[..|rows| - 1];
    FlatLength(w, rows);
    FlatLength(w, front);
    if i == |rows| - 1 {
      assert w * i == |front| * w;
    } else {
      FlatAt(w, front, i, c);
    }
  }

  /** The number of rows can be told from the vector and the stride. */
  lemma RowCount(w: nat, rows: seq<Row>)
    requires Width(w, rows) && w > 0
    ensures |Flat(rows)| / w == |rows|
  {
    FlatLength(w, rows);
    DivExact(|rows|, w);
  }

  lemma DivExact(n: nat, w: nat)
    requires w > 0
    ensures n * w / w == n
  {
    var q := n * w / w;
    assert n * w == q * w + (n * w) % w;
    assert (n - q) * w == (n * w) % w;
    assert n - q >= 1 ==> (n - q) * w >= w;
    assert n - q <= -1 ==> (n - q) * w <= 0 - w;
  }

  /** Row i is the range of w positions from i * w. */
  lemma {:induction false} FlatRow(w: nat, rows: seq<Row>, i: nat)
    requires Width(w, rows) && i < |rows|
    ensures w * i <= w * i + w <= |Flat(rows)| && Flat(rows)[w * i..w * i + w] == rows[i]
  {
    var front := rows[..|rows| - 1];
    FlatLength(w, rows);
    FlatLength(w, front);
    if i < |rows| - 1 {
      FlatRow(w, front, i);
      assert Flat(rows)[..|Flat(front)|] == Flat(front);
      assert Flat(rows)[w * i..w * i + w] == Flat(front)[w * i..w * i + w];
    } else {
      assert w * i == |front| * w;
    }
  }

  /** Two tables of the same width with the same vector have the same rows. */
  lemma FlatInjective(w: nat, a: seq<Row>, b: seq<Row>)
    requires w > 0 && Width(w, a) && Width(w, b) && Flat(a) == Flat(b)
    ensures a == b
  {
    RowCount(w, a);
    RowCount(w, b);
    forall i | 0 <= i < |a|
      ensures a[i] == b[i]
    {
      FlatRow(w, a, i);
      FlatRow(w, b, i);
    }
  }

  // ---- the column map ----

  const NO_RESULT: int := -1

  /** The column map: a variable's entry is its column, or NO_RESULT. */
  ghost predicate V2c(v2c: seq<int>, cols: seq<int>, nvars: nat) {
    && |v2c| == nvars
    && (forall x :: x in cols ==> 0 - nvars <= x < 0)
    && Distinct(cols)
    && forall x :: 0 - nvars <= x < 0 ==> v2c[-(x + 1)] == if x in cols then ColOf(cols, x) else NO_RESULT
  }

  lemma V2cAdd(v2c: seq<int>, cols: seq<int>, nvars: nat, vid: int)
    requires V2c(v2c, cols, nvars) && 0 - nvars <= vid < 0 && vid !in cols
    ensures V2c(v2c[-(vid + 1) := |cols|], cols + [vid], nvars)
  {
    ColOfLast(cols, vid);
    forall x | x in cols
      ensures ColOf(cols + [vid], x) == ColOf(cols, x)
    {
      ColOfPrefix(cols, vid, x);
    }
  }
}
