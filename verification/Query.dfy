/**
 * Basic graph pattern matching by graph exploration (core/engine.hpp, core/query.hpp).
 *
 * A plan is a list of triple patterns.  The engine explores the graph pattern by pattern and
 * keeps a table of rows, one column per variable bound so far.  This module gives patterns
 * their meaning (section 18.3 of SPARQL 1.1 Query Language), defines what each exploration
 * step does to the rows, and proves that the final table is the solution set.
 */
module Query {

  type Id = nat

  datatype Triple = Triple(s: Id, p: Id, o: Id)

  datatype Dir = IN | OUT

  // two reserved predicate ids
  const PREDICATE_ID: int := 0
  const TYPE_ID: int := 1

  // NBITS_IDX
  const NORMAL_ID: int := 0x2_0000

  // no vertex has this id
  const BLANK_ID: Id := 0xFFFF_FFFF

  predicate IsIndexId(id: int) { 1 < id < NORMAL_ID }

  /** Subject and object are variables when negative, otherwise constants. */
  datatype Pattern = Pattern(subj: int, pred: int, dir: Dir, obj: int)

  type Row = seq<Id>

  // ---- meaning of patterns ----

  /** A dummy pattern that makes the exploration start from a type or predicate index. */
  predicate IsIndexPattern(q: Pattern) {
    IsIndexId(q.subj) && (q.pred == PREDICATE_ID || q.pred == TYPE_ID)
  }

  predicate Bound(cols: seq<int>, x: int) { x >= 0 || x in cols }

  function ColOf(cols: seq<int>, x: int): (c: nat)
    requires x in cols
    ensures c < |cols| && cols[c] == x && x !in cols[..c]
  {
    if cols[0] == x then 0 else 1 + ColOf(cols[1..], x)
  }

  /** The value a row gives to a variable or constant. */
  function Val(cols: seq<int>, row: Row, x: int): Id
    requires Bound(cols, x) && |row| == |cols|
  {
    if x >= 0 then x else row[ColOf(cols, x)]
  }

  /** The vertices an index lists: those of a type, or those with an edge of a predicate going
      out (dir IN) or coming in (dir OUT). */
  ghost predicate Indexed(g: set<Triple>, q: Pattern, v: Id)
    requires IsIndexPattern(q)
  {
    if q.pred == TYPE_ID then Triple(v, TYPE_ID, q.subj) in g
    else if q.dir == IN then exists o :: Triple(v, q.subj, o) in g
    else exists s :: Triple(s, q.subj, v) in g
  }

  ghost predicate Edge(g: set<Triple>, a: Id, p: int, d: Dir, b: Id)
    requires p >= 0
  {
    if d == OUT then Triple(a, p, b) in g else Triple(b, p, a) in g
  }

  /** A row satisfies a pattern. */
  ghost predicate Sat(g: set<Triple>, q: Pattern, cols: seq<int>, row: Row)
    requires |row| == |cols| && Bound(cols, q.subj) && Bound(cols, q.obj) && q.pred >= 0
  {
    if IsIndexPattern(q) then Indexed(g, q, Val(cols, row, q.obj))
    else Edge(g, Val(cols, row, q.subj), q.pred, q.dir, Val(cols, row, q.obj))
  }

  ghost predicate AllBound(cols: seq<int>, pats: seq<Pattern>) {
    forall j :: 0 <= j < |pats| ==> Bound(cols, pats[j].subj) && Bound(cols, pats[j].obj) && pats[j].pred >= 0
  }

  /** A solution gives every column a value and satisfies every pattern. */
  ghost predicate Solution(g: set<Triple>, pats: seq<Pattern>, cols: seq<int>, row: Row)
    requires AllBound(cols, pats)
  {
    |row| == |cols| && forall j :: 0 <= j < |pats| ==> Sat(g, pats[j], cols, row)
  }

  // ---- the store ----

  /** What the engine can look up: adjacency lists, and the local index lists of each server. */
  datatype Store = Store(
    servers: nat,
    adj: (Id, int, Dir) -> seq<Id>,
    index: (nat, int, int, Dir) -> seq<Id>)

  ghost predicate Distinct<T>(s: seq<T>) {
    forall i, j :: 0 <= i < j < |s| ==> s[i] != s[j]
  }

  /** The adjacency lists that the store keeps: none for predicates as neighbours, and none from
      a type to its instances, which only the type index lists. */
  predicate Stored(p: int, d: Dir) { p > PREDICATE_ID && !(p == TYPE_ID && d == IN) }

  /** The index lists that it keeps. */
  predicate IndexKept(q: Pattern) { IsIndexPattern(q) && (q.pred == TYPE_ID ==> q.dir == IN) }

  /** Types and predicates share their index keys: an index id stands for what the graph uses it
      for, and the pattern must use it the same way. */
  ghost predicate KindOk(g: set<Triple>, q: Pattern)
    requires IsIndexPattern(q)
  {
    if q.pred == TYPE_ID then forall t :: t in g ==> t.p != q.subj
    else forall t :: t in g && t.p == TYPE_ID ==> t.o != q.subj
  }

  /** The store holds the graph: every list has exactly the right members, each once, and an
      index list holds the vertices of its own server. */
  ghost predicate Holds(st: Store, g: set<Triple>) {
    && st.servers > 0
    && (forall v, p, d :: Stored(p, d) ==> Distinct(st.adj(v, p, d)) && forall x :: x in st.adj(v, p, d) <==> Edge(g, v, p, d, x))
    && (forall i: nat, q: Pattern :: i < st.servers && IndexKept(q) && KindOk(g, q) ==>
          Distinct(st.index(i, q.subj, q.pred, q.dir)))
    && (forall i: nat, q: Pattern, v: Id :: i < st.servers && IndexKept(q) && KindOk(g, q) ==>
          (v in st.index(i, q.subj, q.pred, q.dir) <==> Indexed(g, q, v) && v % st.servers == i))
  }

  // ---- plans the engine supports ----

  /** Columns after a pattern: its object becomes bound. */
  function ColsAfter(cols: seq<int>, q: Pattern): seq<int> {
    if Bound(cols, q.obj) then cols else cols + [q.obj]
  }

  /** The first pattern of a plan that the engine takes for an index start because of its subject,
      but that is none: it fails an assertion. */
  predicate StartFails(q: Pattern) { IsIndexId(q.subj) && !IsIndexPattern(q) }

  /** A pattern that fits these columns.  The first binds one variable from an index or a
      constant; the others start from a bound variable. */
  predicate Joins(cols: seq<int>, q: Pattern) {
    if cols == [] then
      q.subj >= 0 && q.obj < 0 && if IsIndexPattern(q) then IndexKept(q) else Stored(q.pred, q.dir)
    else
      q.subj in cols && q.subj < 0 && Stored(q.pred, q.dir)
  }

  /** A pattern the engine can run on these columns. */
  predicate Supported(cols: seq<int>, q: Pattern) { Joins(cols, q) && (cols == [] ==> !StartFails(q)) }

  /** Patterns in an order in which each one fits. */
  ghost predicate Ordered(cols: seq<int>, pats: seq<Pattern>)
    decreases |pats|
  {
    pats == [] || (Joins(cols, pats[0]) && Ordered(ColsAfter(cols, pats[0]), pats[1..]))
  }

  /** Patterns that the engine can run one after the other. */
  ghost predicate Executable(cols: seq<int>, pats: seq<Pattern>)
    decreases |pats|
  {
    pats == [] || (Supported(cols, pats[0]) && Executable(ColsAfter(cols, pats[0]), pats[1..]))
  }

  /** Patterns in order can be run exactly if they do not begin with a start that fails. */
  lemma {:induction false} ExecutableIff(cols: seq<int>, pats: seq<Pattern>)
    ensures Executable(cols, pats) <==> Ordered(cols, pats) && (cols == [] && pats != [] ==> !StartFails(pats[0]))
    decreases |pats|
  {
    if pats != [] { ExecutableIff(ColsAfter(cols, pats[0]), pats[1..]); }
  }

  function FinalCols(cols: seq<int>, pats: seq<Pattern>): seq<int>
    decreases |pats|
  {
    if pats == [] then cols else FinalCols(ColsAfter(cols, pats[0]), pats[1..])
  }

  // ---- one step on rows ----

  function ExtendRow(row: Row, xs: seq<Id>): (rows: seq<Row>)
    ensures |rows| == |xs| && forall i :: 0 <= i < |xs| ==> rows[i] == row + [xs[i]]
  {
    seq(|xs|, i requires 0 <= i < |xs| => row + [xs[i]])
  }

  /** The rows that one row leads to, given the neighbours of its start vertex. */
  function StepRow(cols: seq<int>, q: Pattern, row: Row, nbrs: seq<Id>): seq<Row>
    requires |row| == |cols|
  {
    if !Bound(cols, q.obj) then ExtendRow(row, nbrs)
    else if Val(cols, row, q.obj) in nbrs then [row] else []
  }

  ghost predicate Shaped(cols: seq<int>, rows: seq<Row>) {
    forall i :: 0 <= i < |rows| ==> |rows[i]| == |cols|
  }

  function StepFrom(st: Store, cols: seq<int>, q: Pattern, rows: seq<Row>): seq<Row>
    requires Supported(cols, q) && cols != []
    requires forall i :: 0 <= i < |rows| ==> |rows[i]| == |cols|
    decreases |rows|
  {
    if rows == [] then []
    else
      var v := Val(cols, rows[0], q.subj);
      StepRow(cols, q, rows[0], st.adj(v, q.pred, q.dir)) + StepFrom(st, cols, q, rows[1..])
  }

  /** The rows of a first pattern, from the given list of vertices. */
  function StartRows(xs: seq<Id>): seq<Row> { ExtendRow([], xs) }

  /** Running a list of patterns one by one on one node. */
  function Explore(st: Store, cols: seq<int>, pats: seq<Pattern>, rows: seq<Row>): (r: seq<Row>)
    requires cols != [] && Executable(cols, pats) && Shaped(cols, rows)
    ensures Shaped(FinalCols(cols, pats), r)
    decreases |pats|
  {
    if pats == [] then rows
    else
      StepShaped(st, cols, pats[0], rows);
      Explore(st, ColsAfter(cols, pats[0]), pats[1..], StepFrom(st, cols, pats[0], rows))
  }

  lemma {:induction false} StepShaped(st: Store, cols: seq<int>, q: Pattern, rows: seq<Row>)
    requires Supported(cols, q) && cols != [] && Shaped(cols, rows)
    ensures Shaped(ColsAfter(cols, q), StepFrom(st, cols, q, rows))
  {
    if rows != [] { StepShaped(st, cols, q, rows[1..]); }
  }

  // ---- columns ----

  lemma {:induction false} ColOfPrefix(cols: seq<int>, y: int, x: int)
    requires x in cols
    ensures x in cols + [y] && ColOf(cols + [y], x) == ColOf(cols, x)
  {
    assert (cols + [y])[ColOf(cols, x)] == x;
    if cols[0] != x {
      ColOfPrefix(cols[1..], y, x);
      assert (cols + [y])[1..] == cols[1..] + [y];
    }
  }

  lemma {:induction false} ColOfLast(cols: seq<int>, y: int)
    requires y !in cols
    ensures y in cols + [y] && ColOf(cols + [y], y) == |cols|
  {
    assert (cols + [y])[|cols|] == y;
    if cols != [] {
      ColOfLast(cols[1..], y);
      assert (cols + [y])[1..] == cols[1..] + [y];
    }
  }

  lemma {:induction false} ColOfSame(a: seq<int>, b: seq<int>, x: int)
    requires a <= b && x in a
    ensures x in b && ColOf(b, x) == ColOf(a, x)
    decreases |a|
  {
    assert b[..|a|] == a;
    if a[0] != x {
      assert a[1..] <= b[1..];
      ColOfSame(a[1..], b[1..], x);
    }
  }

  lemma NotInPrefix(a: seq<int>, b: seq<int>, x: int)
    requires a <= b && x in b && x !in a
    ensures ColOf(b, x) >= |a|
  {
    forall i | 0 <= i < |a|
      ensures b[i] != x
    {
      assert a[i] == b[i] && a[i] in a;
    }
  }

  /** A new column changes no value already there. */
  lemma ValPrefix(cols: seq<int>, y: int, row: Row, x: int)
    requires |row| == |cols| + 1 && Bound(cols, x)
    ensures Bound(cols + [y], x) && Val(cols + [y], row, x) == Val(cols, row[..|cols|], x)
  {
    if x < 0 { ColOfPrefix(cols, y, x); }
  }

  lemma SolutionPrefix(g: set<Triple>, pats: seq<Pattern>, cols: seq<int>, y: int, row: Row)
    requires AllBound(cols, pats) && |row| == |cols| + 1
    ensures AllBound(cols + [y], pats)
    ensures Solution(g, pats, cols + [y], row) <==> Solution(g, pats, cols, row[..|cols|])
  {
    forall j | 0 <= j < |pats|
      ensures Bound(cols + [y], pats[j].subj) && Bound(cols + [y], pats[j].obj)
      ensures Sat(g, pats[j], cols + [y], row) <==> Sat(g, pats[j], cols, row[..|cols|])
    {
      ValPrefix(cols, y, row, pats[j].subj);
      ValPrefix(cols, y, row, pats[j].obj);
    }
  }

  lemma SolutionMore(g: set<Triple>, pats: seq<Pattern>, q: Pattern, cols: seq<int>, row: Row)
    requires AllBound(cols, pats + [q]) && |row| == |cols|
    ensures AllBound(cols, pats) && Bound(cols, q.subj) && Bound(cols, q.obj) && q.pred >= 0
    ensures Solution(g, pats + [q], cols, row) <==> Solution(g, pats, cols, row) && Sat(g, q, cols, row)
  {
    var all := pats + [q];
    assert forall j :: 0 <= j < |pats| ==> all[j] == pats[j];
    assert all[|pats|] == q;
  }

  // ---- a step computes the solutions of one more pattern ----

  lemma {:induction false} InStep(st: Store, cols: seq<int>, q: Pattern, rows: seq<Row>, r: Row)
    requires Supported(cols, q) && cols != [] && Shaped(cols, rows)
    ensures r in StepFrom(st, cols, q, rows) <==>
      if Bound(cols, q.obj) then
        r in rows && Val(cols, r, q.obj) in st.adj(Val(cols, r, q.subj), q.pred, q.dir)
      else
        |r| == |cols| + 1 && r[..|cols|] in rows && r[|cols|] in st.adj(Val(cols, r[..|cols|], q.subj), q.pred, q.dir)
  {
    if rows != [] {
      InStep(st, cols, q, rows[1..], r);
      var first := rows[0];
      var xs := st.adj(Val(cols, first, q.subj), q.pred, q.dir);
      assert rows == [first] + rows[1..];
      if !Bound(cols, q.obj) { InExtend(first, xs, r); }
    }
  }

  lemma InExtend(row: Row, xs: seq<Id>, r: Row)
    ensures r in ExtendRow(row, xs) <==> |r| == |row| + 1 && r[..|row|] == row && r[|row|] in xs
  {
    if |r| == |row| + 1 && r[..|row|] == row && r[|row|] in xs {
      var i :| 0 <= i < |xs| && xs[i] == r[|row|];
      assert ExtendRow(row, xs)[i] == r;
    }
  }

  lemma {:induction false} StepDistinct(st: Store, cols: seq<int>, q: Pattern, rows: seq<Row>)
    requires Supported(cols, q) && cols != [] && Shaped(cols, rows) && Distinct(rows)
    requires forall v :: Distinct(st.adj(v, q.pred, q.dir))
    ensures Distinct(StepFrom(st, cols, q, rows))
  {
    if rows != [] {
      StepDistinct(st, cols, q, rows[1..]);
      var first := rows[0];
      var xs := st.adj(Val(cols, first, q.subj), q.pred, q.dir);
      var a, b := StepRow(cols, q, first, xs), StepFrom(st, cols, q, rows[1..]);
      assert Distinct(a) by { if !Bound(cols, q.obj) { ExtendDistinct(first, xs); } }
      forall r | r in a
        ensures r !in b
      {
        InStep(st, cols, q, rows[1..], r);
        if !Bound(cols, q.obj) { InExtend(first, xs, r); }
      }
      DistinctConcat(a, b);
    }
  }

  lemma ExtendDistinct(row: Row, xs: seq<Id>)
    requires Distinct(xs)
    ensures Distinct(ExtendRow(row, xs))
  {
    var e := ExtendRow(row, xs);
    forall i, j | 0 <= i < j < |e|
      ensures e[i] != e[j]
    {
      assert e[i][|row|] == xs[i] && e[j][|row|] == xs[j];
    }
  }

  lemma DistinctConcat<T>(a: seq<T>, b: seq<T>)
    requires Distinct(a) && Distinct(b) && forall x :: x in a ==> x !in b
    ensures Distinct(a + b)
  {
    var c := a + b;
    forall i, j | 0 <= i < j < |c|
      ensures c[i] != c[j]
    {
      if j < |a| {
        assert c[i] == a[i] && c[j] == a[j];
      } else if i >= |a| {
        assert c[i] == b[i - |a|] && c[j] == b[j - |a|];
      } else {
        assert c[i] == a[i] && a[i] in a && c[j] == b[j - |a|] && b[j - |a|] in b;
      }
    }
  }

  /** The table is exactly the solution set: every solution is in it, once, and nothing else. */
  ghost predicate IsSolutionTable(g: set<Triple>, pats: seq<Pattern>, cols: seq<int>, rows: seq<Row>) {
    && AllBound(cols, pats)
    && Shaped(cols, rows)
    && Distinct(rows)
    && forall r :: r in rows <==> Solution(g, pats, cols, r)
  }

  lemma StepSolutions(st: Store, g: set<Triple>, pats: seq<Pattern>, cols: seq<int>, q: Pattern, rows: seq<Row>)
    requires Holds(st, g) && IsSolutionTable(g, pats, cols, rows) && Supported(cols, q) && cols != []
    ensures IsSolutionTable(g, pats + [q], ColsAfter(cols, q), StepFrom(st, cols, q, rows))
  {
    var cols', rows' := ColsAfter(cols, q), StepFrom(st, cols, q, rows);
    StepShaped(st, cols, q, rows);
    StepDistinct(st, cols, q, rows);
    StepBinds(pats, cols, q);
    forall r
      ensures r in rows' <==> Solution(g, pats + [q], cols', r)
    {
      if |r| == |cols'| { StepSolution(st, g, pats, cols, q, rows, r); }
    }
  }

  lemma StepBinds(pats: seq<Pattern>, cols: seq<int>, q: Pattern)
    requires AllBound(cols, pats) && Supported(cols, q) && cols != []
    ensures AllBound(ColsAfter(cols, q), pats + [q])
  {
    forall j | 0 <= j < |pats + [q]|
      ensures Bound(ColsAfter(cols, q), (pats + [q])[j].subj) && Bound(ColsAfter(cols, q), (pats + [q])[j].obj)
    {
    }
  }

  lemma StepSolution(st: Store, g: set<Triple>, pats: seq<Pattern>, cols: seq<int>, q: Pattern, rows: seq<Row>, r: Row)
    requires Holds(st, g) && IsSolutionTable(g, pats, cols, rows) && Supported(cols, q) && cols != []
    requires |r| == |ColsAfter(cols, q)| && AllBound(ColsAfter(cols, q), pats + [q])
    ensures r in StepFrom(st, cols, q, rows) <==> Solution(g, pats + [q], ColsAfter(cols, q), r)
  {
    hide Solution, StepFrom, Val;
    InStep(st, cols, q, rows, r);
    SolutionMore(g, pats, q, ColsAfter(cols, q), r);
    if !Bound(cols, q.obj) {
      SolutionPrefix(g, pats, cols, q.obj, r);
      ValPrefix(cols, q.obj, r, q.subj);
      ValLast(cols, q.obj, r);
    }
  }

  lemma ValLast(cols: seq<int>, y: int, row: Row)
    requires |row| == |cols| + 1 && !Bound(cols, y)
    ensures Bound(cols + [y], y) && Val(cols + [y], row, y) == row[|cols|]
  {
    ColOfLast(cols, y);
  }

  /** Exploring the rest of a plan from the solutions of its first part gives the solutions of
      the whole plan. */
  lemma {:induction false} ExploreSolutions(st: Store, g: set<Triple>, before: seq<Pattern>, cols: seq<int>,
                                            pats: seq<Pattern>, rows: seq<Row>)
    requires Holds(st, g) && IsSolutionTable(g, before, cols, rows) && cols != [] && Executable(cols, pats)
    ensures IsSolutionTable(g, before + pats, FinalCols(cols, pats), Explore(st, cols, pats, rows))
    decreases |pats|
  {
    hide Holds, IsSolutionTable, StepFrom;
    TableShaped(g, before, cols, rows);
    if pats == [] {
      assert before + pats == before;
    } else {
      var q := pats[0];
      StepShaped(st, cols, q, rows);
      StepSolutions(st, g, before, cols, q, rows);
      AfterNonEmpty(cols, q);
      ExploreSolutions(st, g, before + [q], ColsAfter(cols, q), pats[1..], StepFrom(st, cols, q, rows));
      assert before + [q] + pats[1..] == before + pats;
    }
  }

  lemma TableShaped(g: set<Triple>, pats: seq<Pattern>, cols: seq<int>, rows: seq<Row>)
    requires IsSolutionTable(g, pats, cols, rows)
    ensures Shaped(cols, rows)
  {
  }

  lemma AfterNonEmpty(cols: seq<int>, q: Pattern)
    requires cols != []
    ensures ColsAfter(cols, q) != []
  {
  }

  // ---- one more pattern at the end ----

  lemma {:induction false} FinalColsSnoc(cols: seq<int>, pats: seq<Pattern>, q: Pattern)
    ensures FinalCols(cols, pats + [q]) == ColsAfter(FinalCols(cols, pats), q)
    decreases |pats|
  {
    if pats == [] {
      assert pats + [q] == [q] && [q][1..] == [];
    } else {
      assert (pats + [q])[1..] == pats[1..] + [q];
      FinalColsSnoc(ColsAfter(cols, pats[0]), pats[1..], q);
    }
  }

  lemma {:induction false} OrderedSnoc(cols: seq<int>, pats: seq<Pattern>, q: Pattern)
    ensures Ordered(cols, pats + [q]) <==> Ordered(cols, pats) && Joins(FinalCols(cols, pats), q)
    decreases |pats|
  {
    hide Joins;
    if pats == [] {
      assert pats + [q] == [q] && [q][1..] == [];
    } else {
      assert (pats + [q])[1..] == pats[1..] + [q];
      OrderedSnoc(ColsAfter(cols, pats[0]), pats[1..], q);
    }
  }

  lemma {:induction false} ExecutableSnoc(cols: seq<int>, pats: seq<Pattern>, q: Pattern)
    ensures Executable(cols, pats + [q]) <==> Executable(cols, pats) && Supported(FinalCols(cols, pats), q)
    decreases |pats|
  {
    if pats == [] {
      assert pats + [q] == [q] && [q][1..] == [];
    } else {
      assert (pats + [q])[1..] == pats[1..] + [q];
      ExecutableSnoc(ColsAfter(cols, pats[0]), pats[1..], q);
    }
  }

  /** Running patterns in two parts. */
  lemma {:induction false} ExploreParts(st: Store, cols: seq<int>, a: seq<Pattern>, b: seq<Pattern>, rows: seq<Row>)
    requires cols != [] && Executable(cols, a + b) && Shaped(cols, rows)
    ensures Executable(cols, a) && FinalCols(cols, a) != [] && Executable(FinalCols(cols, a), b)
    ensures FinalCols(cols, a + b) == FinalCols(FinalCols(cols, a), b)
    ensures Explore(st, cols, a + b, rows) == Explore(st, FinalCols(cols, a), b, Explore(st, cols, a, rows))
    decreases |a|
  {
    hide StepFrom, Supported;
    if a == [] {
      assert a + b == b;
    } else {
      assert (a + b)[1..] == a[1..] + b;
      StepShaped(st, cols, a[0], rows);
      AfterNonEmpty(cols, a[0]);
      ExploreParts(st, ColsAfter(cols, a[0]), a[1..], b, StepFrom(st, cols, a[0], rows));
    }
  }

  /** Patterns in two parts can be run if both can. */
  lemma {:induction false} ExecutableParts(cols: seq<int>, a: seq<Pattern>, b: seq<Pattern>)
    ensures Executable(cols, a + b) <==> Executable(cols, a) && Executable(FinalCols(cols, a), b)
    decreases |a|
  {
    hide Supported;
    if a == [] {
      assert a + b == b;
    } else {
      assert (a + b)[1..] == a[1..] + b;
      ExecutableParts(ColsAfter(cols, a[0]), a[1..], b);
    }
  }

  lemma {:induction false} ExploreSnoc(st: Store, cols: seq<int>, pats: seq<Pattern>, q: Pattern, rows: seq<Row>)
    requires cols != [] && Executable(cols, pats + [q]) && Shaped(cols, rows)
    ensures Executable(cols, pats) && FinalCols(cols, pats) != [] && Supported(FinalCols(cols, pats), q)
    ensures Explore(st, cols, pats + [q], rows) == StepFrom(st, FinalCols(cols, pats), q, Explore(st, cols, pats, rows))
    decreases |pats|
  {
    hide StepFrom, Supported;
    ExecutableSnoc(cols, pats, q);
    if pats == [] {
      assert pats + [q] == [q] && [q][1..] == [];
      StepShaped(st, cols, q, rows);
    } else {
      assert (pats + [q])[1..] == pats[1..] + [q];
      StepShaped(st, cols, pats[0], rows);
      AfterNonEmpty(cols, pats[0]);
      ExploreSnoc(st, ColsAfter(cols, pats[0]), pats[1..], q, StepFrom(st, cols, pats[0], rows));
    }
  }
}
