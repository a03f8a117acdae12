/**
 * Co-run (core/engine.hpp, do_corun): when all variables of the next few patterns are bound
 * already, the engine runs these patterns as a query of their own from the different values of
 * one variable, and then keeps the rows that its result contains (a semi-join), instead of
 * checking every row against every pattern.
 */
module CoRun {
  import opened Query
  import opened ForkJoin
  import opened ParallelStart
  import opened Table
  import opened Engine
  import TupleSort
  import Iteration

  // ---- what one row must satisfy ----

  ghost predicate Passes(st: Store, cols: seq<int>, q: Pattern, row: Row)
    requires |row| == |cols| && Bound(cols, q.subj) && Bound(cols, q.obj)
  {
    Val(cols, row, q.obj) in st.adj(Val(cols, row, q.subj), q.pred, q.dir)
  }

  ghost predicate PassesAll(st: Store, cols: seq<int>, pats: seq<Pattern>, row: Row)
    requires |row| == |cols| && AllBound(cols, pats)
  {
    forall j :: 0 <= j < |pats| ==> Passes(st, cols, pats[j], row)
  }

  // ---- exploring binds columns one after the other ----

  lemma {:induction false} FinalColsGrow(cols: seq<int>, pats: seq<Pattern>)
    ensures cols <= FinalCols(cols, pats)
    decreases |pats|
  {
    if pats != [] { FinalColsGrow(ColsAfter(cols, pats[0]), pats[1..]); }
  }

  lemma {:induction false} FinalColsBind(cols: seq<int>, pats: seq<Pattern>)
    requires cols != [] && Executable(cols, pats)
    ensures AllBound(FinalCols(cols, pats), pats)
    decreases |pats|
  {
    if pats != [] {
      var cols' := ColsAfter(cols, pats[0]);
      FinalColsBind(cols', pats[1..]);
      FinalColsGrow(cols', pats[1..]);
      InGrown(cols', FinalCols(cols', pats[1..]));
      forall j | 0 <= j < |pats|
        ensures Bound(FinalCols(cols, pats), pats[j].subj) && Bound(FinalCols(cols, pats), pats[j].obj) && pats[j].pred >= 0
      {
        if j > 0 { assert pats[j] == pats[1..][j - 1]; }
      }
    }
  }

  lemma InGrown(a: seq<int>, b: seq<int>)
    requires a <= b
    ensures forall x :: x in a ==> x in b
  {
    assert b[..|a|] == a;
  }

  lemma ValGrown(a: seq<int>, b: seq<int>, row: Row, x: int)
    requires a <= b && |row| == |b| && Bound(a, x)
    ensures Bound(b, x) && Val(b, row, x) == Val(a, row[..|a|], x)
  {
    InGrown(a, b);
    if x < 0 { ColOfSame(a, b, x); }
  }

  lemma PassesGrown(st: Store, a: seq<int>, b: seq<int>, q: Pattern, row: Row)
    requires a <= b && |row| == |b| && Bound(a, q.subj) && Bound(a, q.obj)
    ensures Bound(b, q.subj) && Bound(b, q.obj) && (Passes(st, b, q, row) <==> Passes(st, a, q, row[..|a|]))
  {
    ValGrown(a, b, row, q.subj);
    ValGrown(a, b, row, q.obj);
  }

  /** One step, in terms of what its rows satisfy. */
  lemma InStepPasses(st: Store, cols: seq<int>, q: Pattern, rows: seq<Row>, r: Row)
    requires Supported(cols, q) && cols != [] && Shaped(cols, rows) && |r| == |ColsAfter(cols, q)|
    ensures Bound(ColsAfter(cols, q), q.subj) && Bound(ColsAfter(cols, q), q.obj)
    ensures r in StepFrom(st, cols, q, rows) <==> r[..|cols|] in rows && Passes(st, ColsAfter(cols, q), q, r)
  {
    InStep(st, cols, q, rows, r);
    if Bound(cols, q.obj) {
      assert r[..|cols|] == r;
    } else {
      ValPrefix(cols, q.obj, r, q.subj);
      ValLast(cols, q.obj, r);
    }
  }

  /** A row is found exactly if its first cells were there and it satisfies every pattern. */
  lemma {:induction false} InExplore(st: Store, cols: seq<int>, pats: seq<Pattern>, rows: seq<Row>, t: Row)
    requires cols != [] && Executable(cols, pats) && Shaped(cols, rows) && |t| == |FinalCols(cols, pats)|
    ensures cols <= FinalCols(cols, pats) && AllBound(FinalCols(cols, pats), pats)
    ensures t in Explore(st, cols, pats, rows) <==> t[..|cols|] in rows && PassesAll(st, FinalCols(cols, pats), pats, t)
    decreases |pats|
  {
    hide Passes, StepFrom, Val, Supported;
    FinalColsGrow(cols, pats);
    FinalColsBind(cols, pats);
    if pats == [] {
      assert t[..|cols|] == t;
    } else {
      var q, cols', rest := pats[0], ColsAfter(cols, pats[0]), pats[1..];
      var fin := FinalCols(cols', rest);
      StepShaped(st, cols, q, rows);
      FinalColsGrow(cols', rest);
      InExplore(st, cols', rest, StepFrom(st, cols, q, rows), t);
      InStepPasses(st, cols, q, rows, t[..|cols'|]);
      PassesGrown(st, cols', fin, q, t);
      assert t[..|cols'|][..|cols|] == t[..|cols|];
      PassesSplit(st, fin, pats, t);
    }
  }

  lemma PassesSplit(st: Store, cols: seq<int>, pats: seq<Pattern>, t: Row)
    requires |t| == |cols| && AllBound(cols, pats) && pats != []
    ensures AllBound(cols, pats[1..])
    ensures PassesAll(st, cols, pats, t) <==> Passes(st, cols, pats[0], t) && PassesAll(st, cols, pats[1..], t)
  {
    hide Passes;
    assert forall j :: 1 <= j < |pats| ==> pats[j] == pats[1..][j - 1];
  }

  // ---- with all variables bound, exploring is filtering ----

  ghost function Kept(st: Store, cols: seq<int>, pats: seq<Pattern>, rows: seq<Row>): (r: seq<Row>)
    requires Shaped(cols, rows) && AllBound(cols, pats)
    ensures Shaped(cols, r)
  {
    if rows == [] then []
    else Kept(st, cols, pats, rows[..|rows| - 1]) + if PassesAll(st, cols, pats, rows[|rows| - 1]) then [rows[|rows| - 1]] else []
  }

  /** The patterns only check: their subjects are bound variables, their objects are bound. */
  ghost predicate Checks(cols: seq<int>, pats: seq<Pattern>) {
    cols != [] && AllBound(cols, pats) && forall j :: 0 <= j < |pats| ==> Supported(cols, pats[j])
  }

  lemma {:induction false} ChecksRun(cols: seq<int>, pats: seq<Pattern>)
    requires Checks(cols, pats)
    ensures Executable(cols, pats) && FinalCols(cols, pats) == cols
    decreases |pats|
  {
    hide Supported;
    if pats != [] {
      assert Checks(cols, pats[1..]);
      ChecksRun(cols, pats[1..]);
    }
  }

  lemma {:induction false} ChecksOne(st: Store, cols: seq<int>, pats: seq<Pattern>, row: Row)
    requires Checks(cols, pats) && |row| == |cols|
    ensures Executable(cols, pats) && Explore(st, cols, pats, [row]) == if PassesAll(st, cols, pats, row) then [row] else []
    decreases |pats|
  {
    hide Val, Supported;
    ChecksRun(cols, pats);
    if pats != [] {
      assert Checks(cols, pats[1..]);
      ChecksRun(cols, pats[1..]);
      var one := StepFrom(st, cols, pats[0], [row]);
      StepOne(st, cols, pats[0], row);
      PassesSplit(st, cols, pats, row);
      if Passes(st, cols, pats[0], row) {
        ChecksOne(st, cols, pats[1..], row);
      } else {
        ExploreNone(st, cols, pats[1..]);
      }
    }
  }

  lemma StepOne(st: Store, cols: seq<int>, q: Pattern, row: Row)
    requires Supported(cols, q) && cols != [] && |row| == |cols| && Bound(cols, q.obj) && Bound(cols, q.subj)
    ensures StepFrom(st, cols, q, [row]) == if Passes(st, cols, q, row) then [row] else []
  {
    assert [row][1..] == [];
  }

  /** Running the patterns one by one keeps the rows that satisfy them all. */
  lemma {:induction false} ChecksKeep(st: Store, cols: seq<int>, pats: seq<Pattern>, rows: seq<Row>)
    requires Checks(cols, pats) && Shaped(cols, rows)
    ensures Executable(cols, pats) && Explore(st, cols, pats, rows) == Kept(st, cols, pats, rows)
    decreases |rows|
  {
    hide Explore, PassesAll;
    ChecksRun(cols, pats);
    if rows == [] {
      ExploreNone(st, cols, pats);
    } else {
      var n := |rows| - 1;
      ChecksKeep(st, cols, pats, rows[..n]);
      ChecksOne(st, cols, pats, rows[n]);
      assert rows == rows[..n] + [rows[n]];
      ExploreConcat(st, cols, pats, rows[..n], [rows[n]]);
    }
  }

  // ---- the semi-join ----

  /** The cells of the given variables. */
  function Project(cols: seq<int>, vars: seq<int>, row: Row): (t: Row)
    requires |row| == |cols| && forall k :: 0 <= k < |vars| ==> vars[k] in cols
    ensures |t| == |vars|
  {
    seq(|vars|, k requires 0 <= k < |vars| => row[ColOf(cols, vars[k])])
  }

  lemma ProjectPasses(st: Store, cols: seq<int>, vars: seq<int>, pats: seq<Pattern>, row: Row)
    requires |row| == |cols| && (forall k :: 0 <= k < |vars| ==> vars[k] in cols && vars[k] < 0)
    requires AllBound(vars, pats)
    ensures AllBound(cols, pats)
    ensures PassesAll(st, vars, pats, Project(cols, vars, row)) <==> PassesAll(st, cols, pats, row)
  {
    hide AllBound;
    ProjectBound(cols, vars, pats);
    var t := Project(cols, vars, row);
    forall j | 0 <= j < |pats|
      ensures Bound(cols, pats[j].subj) && Bound(cols, pats[j].obj) && Bound(vars, pats[j].subj) && Bound(vars, pats[j].obj)
      ensures Passes(st, vars, pats[j], t) <==> Passes(st, cols, pats[j], row)
    {
      BoundAt(cols, vars, pats, j);
      assert Val(vars, t, pats[j].subj) == Val(cols, row, pats[j].subj);
      assert Val(vars, t, pats[j].obj) == Val(cols, row, pats[j].obj);
    }
  }

  lemma ProjectBound(cols: seq<int>, vars: seq<int>, pats: seq<Pattern>)
    requires (forall k :: 0 <= k < |vars| ==> vars[k] in cols) && AllBound(vars, pats)
    ensures AllBound(cols, pats)
  {
  }

  lemma BoundAt(cols: seq<int>, vars: seq<int>, pats: seq<Pattern>, j: nat)
    requires AllBound(cols, pats) && AllBound(vars, pats) && j < |pats|
    ensures Bound(cols, pats[j].subj) && Bound(cols, pats[j].obj) && Bound(vars, pats[j].subj) && Bound(vars, pats[j].obj)
  {
  }

  /** Looking the row's cells up in the sub-query's result tells whether it satisfies the
      patterns, if the sub-query started from the row's own value among others. */
  lemma SemiJoin(st: Store, cols: seq<int>, vid: int, pats: seq<Pattern>, starts: seq<Id>, row: Row)
    requires |row| == |cols| && vid < 0 && vid in cols && Executable([vid], pats)
    requires (forall k :: 0 <= k < |FinalCols([vid], pats)| ==> FinalCols([vid], pats)[k] in cols && FinalCols([vid], pats)[k] < 0)
    requires row[ColOf(cols, vid)] in starts
    ensures AllBound(cols, pats)
    ensures Project(cols, FinalCols([vid], pats), row) in Explore(st, [vid], pats, StartRows(starts)) <==> PassesAll(st, cols, pats, row)
  {
    hide Explore, PassesAll, Executable, FinalCols;
    var vars := FinalCols([vid], pats);
    var t := Project(cols, vars, row);
    InExplore(st, [vid], pats, StartRows(starts), t);
    ProjectPasses(st, cols, vars, pats, row);
    assert vars[0] == vid;
    InExtend([], starts, t[..1]);
  }

  // ---- renaming the variables of the sub-query ----

  /** The variables of the sub-query are numbered -1, -2, ... in the order they appear. */
  function NewId(vars: seq<int>, x: int): int
    requires x < 0 ==> x in vars
  {
    if x < 0 then -1 - ColOf(vars, x) else x
  }

  function Renamed(vars: seq<int>, q: Pattern): Pattern
    requires Bound(vars, q.subj) && Bound(vars, q.obj)
  {
    Pattern(NewId(vars, q.subj), q.pred, q.dir, NewId(vars, q.obj))
  }

  function RenamedAll(vars: seq<int>, pats: seq<Pattern>): (r: seq<Pattern>)
    requires forall j :: 0 <= j < |pats| ==> Bound(vars, pats[j].subj) && Bound(vars, pats[j].obj)
    ensures |r| == |pats| && forall j :: 0 <= j < |pats| ==> r[j] == Renamed(vars, pats[j])
  {
    seq(|pats|, j requires 0 <= j < |pats| => Renamed(vars, pats[j]))
  }

  function NewCols(k: nat): (r: seq<int>)
    ensures |r| == k && forall i :: 0 <= i < k ==> r[i] == -1 - i
  {
    seq(k, i => -1 - i)
  }

  lemma {:induction false} NewColOf(s: seq<int>, k: nat, i: nat)
    requires k <= i < k + |s| && forall j :: 0 <= j < |s| ==> s[j] == -1 - (k + j)
    ensures -1 - i in s && ColOf(s, -1 - i) == i - k
    decreases |s|
  {
    assert s[i - k] == -1 - i;
    if i > k { NewColOf(s[1..], k + 1, i); }
  }

  lemma NewNotIn(k: nat, i: int)
    requires i >= k
    ensures -1 - i !in NewCols(k)
  {
  }

  lemma NewBound(vars: seq<int>, cols: seq<int>, x: int)
    requires cols <= vars && Bound(vars, x)
    ensures Bound(NewCols(|cols|), NewId(vars, x)) <==> Bound(cols, x)
    ensures x < 0 && Bound(cols, x) ==> ColOf(NewCols(|cols|), NewId(vars, x)) == ColOf(cols, x)
  {
    hide NewCols, ColOf;
    InGrown(cols, vars);
    if x < 0 && x in cols {
      ColOfSame(cols, vars, x);
      NewColAt(|cols|, ColOf(cols, x));
    } else if x < 0 {
      NotInPrefix(cols, vars, x);
      NewNotIn(|cols|, ColOf(vars, x));
    }
  }

  lemma NewColAt(k: nat, i: nat)
    requires i < k
    ensures -1 - i in NewCols(k) && ColOf(NewCols(k), -1 - i) == i
  {
    NewColOf(NewCols(k), 0, i);
  }

  lemma {:induction false} StepRenamed(st: Store, vars: seq<int>, cols: seq<int>, q: Pattern, rows: seq<Row>)
    requires cols != [] && cols <= vars && Distinct(vars) && Bound(vars, q.obj) && Supported(cols, q) && Shaped(cols, rows)
    ensures Bound(vars, q.subj) && Supported(NewCols(|cols|), Renamed(vars, q))
    ensures StepFrom(st, NewCols(|cols|), Renamed(vars, q), rows) == StepFrom(st, cols, q, rows)
    decreases |rows|
  {
    InGrown(cols, vars);
    NewBound(vars, cols, q.subj);
    NewBound(vars, cols, q.obj);
    if rows != [] { StepRenamed(st, vars, cols, q, rows[1..]); }
  }

  lemma ColsRenamed(vars: seq<int>, cols: seq<int>, q: Pattern)
    requires cols <= vars && Distinct(vars) && Bound(vars, q.subj) && Bound(vars, q.obj) && ColsAfter(cols, q) <= vars
    ensures ColsAfter(NewCols(|cols|), Renamed(vars, q)) == NewCols(|ColsAfter(cols, q)|)
  {
    NewBound(vars, cols, q.obj);
    if !Bound(cols, q.obj) {
      NotInPrefix(cols, vars, q.obj);
      assert vars[|cols|] == (cols + [q.obj])[|cols|] == q.obj;
      assert ColOf(vars, q.obj) == |cols|;
    }
  }

  /** Exploring with the new names finds the same rows. */
  lemma {:induction false} ExploreRenamed(st: Store, vars: seq<int>, cols: seq<int>, pats: seq<Pattern>, rows: seq<Row>)
    requires cols != [] && Distinct(vars) && Executable(cols, pats) && FinalCols(cols, pats) <= vars && Shaped(cols, rows)
    ensures forall j :: 0 <= j < |pats| ==> Bound(vars, pats[j].subj) && Bound(vars, pats[j].obj)
    ensures Executable(NewCols(|cols|), RenamedAll(vars, pats))
    ensures FinalCols(NewCols(|cols|), RenamedAll(vars, pats)) == NewCols(|FinalCols(cols, pats)|)
    ensures Explore(st, NewCols(|cols|), RenamedAll(vars, pats), rows) == Explore(st, cols, pats, rows)
    decreases |pats|
  {
    hide StepFrom, Supported, Renamed;
    FinalColsBind(cols, pats);
    InGrown(FinalCols(cols, pats), vars);
    FinalColsGrow(cols, pats);
    if pats != [] {
      var q, rest := pats[0], pats[1..];
      var cols' := ColsAfter(cols, q);
      FinalColsGrow(cols', rest);
      StepShaped(st, cols, q, rows);
      StepRenamed(st, vars, cols, q, rows);
      ColsRenamed(vars, cols, q);
      ExploreRenamed(st, vars, cols', rest, StepFrom(st, cols, q, rows));
      assert RenamedAll(vars, pats)[1..] == RenamedAll(vars, rest);
    }
  }

  // ---- the engine's steps ----

  /** Step 1: the different values of a column. */
  method UniqueValues(req: Request, col: nat) returns (starts: seq<Id>)
    requires req.Valid() && col < |req.cols|
    ensures forall v :: v in starts <==> exists i :: 0 <= i < |req.rows| && req.rows[i][col] == v
    ensures Distinct(starts)
  {
    var unique: set<Id> := {};
    for i := 0 to req.GetRowNum()
      invariant forall v :: v in unique <==> exists k :: 0 <= k < i && req.rows[k][col] == v
    {
      unique := unique + {req.GetRowCol(i, col)};
    }
    starts := [];
    ghost var all := unique;
    while unique != {}
      decreases unique
      invariant unique <= all && Distinct(starts)
      invariant forall v :: v in starts <==> v in all && v !in unique
    {
      var v := Iteration.Any(unique);
      starts := starts + [v];
      unique := unique - {v};
    }
  }

  /** Where a plan has got to after i patterns. */
  lemma ExecAt(cols: seq<int>, pats: seq<Pattern>, i: nat)
    requires i < |pats| && Executable(cols, pats)
    ensures Supported(FinalCols(cols, pats[..i]), pats[i])
    ensures FinalCols(cols, pats[..i + 1]) == ColsAfter(FinalCols(cols, pats[..i]), pats[i])
    decreases |pats| - i
  {
    if i + 1 < |pats| { ExecutablePrefix(cols, pats, i + 1); } else { assert pats[..i + 1] == pats; }
    assert pats[..i + 1] == pats[..i] + [pats[i]];
    ExecutableSnoc(cols, pats[..i], pats[i]);
    FinalColsSnoc(cols, pats[..i], pats[i]);
  }

  lemma {:induction false} ExecutablePrefix(cols: seq<int>, pats: seq<Pattern>, i: nat)
    requires i <= |pats| && Executable(cols, pats)
    ensures Executable(cols, pats[..i])
    decreases |pats| - i
  {
    if i < |pats| {
      ExecutablePrefix(cols, pats, i + 1);
      assert pats[..i + 1] == pats[..i] + [pats[i]];
      ExecutableSnoc(cols, pats[..i], pats[i]);
    } else {
      assert pats[..i] == pats;
    }
  }

  lemma {:induction false} FinalDistinct(cols: seq<int>, pats: seq<Pattern>)
    requires Distinct(cols) && forall x :: x in cols ==> x < 0
    ensures Distinct(FinalCols(cols, pats)) && forall x :: x in FinalCols(cols, pats) ==> x < 0
    decreases |pats|
  {
    if pats != [] { FinalDistinct(ColsAfter(cols, pats[0]), pats[1..]); }
  }

  lemma FinalPrefix(cols: seq<int>, pats: seq<Pattern>, i: nat)
    requires i <= |pats|
    ensures FinalCols(cols, pats[..i]) <= FinalCols(cols, pats)
    decreases |pats| - i
  {
    if i < |pats| {
      FinalPrefix(cols, pats, i + 1);
      assert pats[..i + 1] == pats[..i] + [pats[i]];
      FinalColsSnoc(cols, pats[..i], pats[i]);
    } else {
      assert pats[..i] == pats;
    }
  }

  /** Renaming one variable, noting it if it is new. */
  method Remap(id: int, vars: seq<int>) returns (newId: int, vars': seq<int>)
    ensures vars' == if Bound(vars, id) then vars else vars + [id]
    ensures (id < 0 ==> id in vars') && newId == NewId(vars', id)
  {
    if id < 0 {
      vars' := vars;
      if id !in vars {
        ColOfLast(vars, id);
        newId := -1 - |vars|;
        vars' := vars + [id];
      } else {
        newId := -1 - ColOf(vars, id);
      }
    } else {
      newId, vars' := id, vars;
    }
  }

  /** Step 2: the patterns with their variables renamed, and the variables. */
  method MakeSubPlan(pats: seq<Pattern>, ghost vid: int) returns (sub: seq<Pattern>, vars: seq<int>)
    requires pats != [] && vid == pats[0].subj < 0 && Executable([vid], pats)
    ensures vars == FinalCols([vid], pats)
    ensures forall j :: 0 <= j < |pats| ==> Bound(vars, pats[j].subj) && Bound(vars, pats[j].obj)
    ensures sub == RenamedAll(vars, pats)
  {
    hide Executable, FinalCols, Renamed, Supported;
    ghost var fin := FinalCols([vid], pats);
    FinalColsBind([vid], pats);
    sub, vars := [], [];
    for i := 0 to |pats|
      invariant |sub| == i && vars == (if i == 0 then [] else FinalCols([vid], pats[..i]))
      invariant forall j :: 0 <= j < i ==> sub[j] == Renamed(fin, pats[j])
    {
      ExecAt([vid], pats, i);
      FinalPrefix([vid], pats, i + 1);
      FirstCols(vid, pats, i);
      var q;
      q, vars := RemapPattern(pats[i], vars, FinalCols([vid], pats[..i]), fin);
      sub := sub + [q];
    }
    assert pats[..|pats|] == pats;
  }

  method RemapPattern(q: Pattern, vars: seq<int>, ghost cols: seq<int>, ghost fin: seq<int>)
    returns (q': Pattern, vars': seq<int>)
    requires cols != [] && Supported(cols, q) && ColsAfter(cols, q) <= fin
    requires vars == cols || (vars == [] && cols == [q.subj])
    ensures vars' == ColsAfter(cols, q) && Bound(fin, q.subj) && Bound(fin, q.obj) && q' == Renamed(fin, q)
  {
    var subject, obj, between;
    subject, between := Remap(q.subj, vars);
    assert between == cols;
    obj, vars' := Remap(q.obj, between);
    assert cols <= ColsAfter(cols, q);
    SameNew(between, fin, q.subj);
    SameNew(vars', fin, q.obj);
    q' := Pattern(subject, q.pred, q.dir, obj);
  }

  lemma FirstCols(vid: int, pats: seq<Pattern>, i: nat)
    requires i < |pats|
    ensures FinalCols([vid], pats[..i]) != [] && (i == 0 ==> FinalCols([vid], pats[..i]) == [vid])
  {
    FinalColsGrow([vid], pats[..i]);
    if i == 0 { assert pats[..0] == []; }
  }

  lemma SameNew(vars: seq<int>, fin: seq<int>, x: int)
    requires vars <= fin && Bound(vars, x)
    ensures Bound(fin, x) && NewId(vars, x) == NewId(fin, x)
  {
    InGrown(vars, fin);
    if x < 0 { ColOfSame(vars, fin, x); }
  }

  lemma RenamedBelow(vars: seq<int>, pats: seq<Pattern>)
    requires forall j :: 0 <= j < |pats| ==> Bound(vars, pats[j].subj) && Bound(vars, pats[j].obj)
    ensures VarsBelow(RenamedAll(vars, pats), |vars|)
  {
  }

  /** Steps 3 and 4: run the sub-query on this engine. */
  method RunSubQuery(w: Worker, sub: seq<Pattern>, nvars: nat, starts: seq<Id>) returns (colNum: nat, table: seq<Id>, ghost rows: seq<Row>)
    requires nvars > 0 && VarsBelow(sub, nvars) && sub != [] && Executable([-1], sub) && BlankIsolated(w.st)
    ensures rows == Explore(w.st, [-1], sub, StartRows(starts))
    ensures colNum == |FinalCols([-1], sub)| && table == Flat(rows)
  {
    hide Explore, StartList;
    var v2c := seq(nvars, _ => NO_RESULT);
    v2c := v2c[0 := 0];
    assert ColOf([-1], -1) == 0;
    StartFlat(starts);
    var req := new Request.Received(SubQuery(0, v2c, 1, 0, starts), sub, nvars, [-1], StartRows(starts));
    assert sub[0..] == sub;
    ExecutableIff([-1], sub);
    while true
      invariant req.Valid() && req.Ready() && req.step < |sub| && req.cols != [] && req.patterns == sub
      invariant Remaining(w.st, w.sid, req) == Explore(w.st, [-1], sub, StartRows(starts))
      invariant FinalCols(req.cols, sub[req.step..]) == FinalCols([-1], sub)
      decreases |sub| - req.step
    {
      var ok := w.ExecuteOnePattern(req);
      if req.step == |sub| { break; }
    }
    ExploreDone(w.st, req.cols, req.rows);
    assert sub[|sub|..] == [];
    colNum, table, rows := req.colNum, req.table, req.rows;
  }

  /** The rows whose cells of the given variables are a row of the sub-query's result. */
  ghost function Joined(cols: seq<int>, vars: seq<int>, found: seq<Row>, rows: seq<Row>): (r: seq<Row>)
    requires Shaped(cols, rows) && forall k :: 0 <= k < |vars| ==> vars[k] in cols
    ensures Shaped(cols, r)
  {
    if rows == [] then []
    else
      Joined(cols, vars, found, rows[..|rows| - 1])
      + if Project(cols, vars, rows[|rows| - 1]) in found then [rows[|rows| - 1]] else []
  }

  lemma JoinedStep(cols: seq<int>, vars: seq<int>, found: seq<Row>, rows: seq<Row>, i: nat)
    requires Shaped(cols, rows) && (forall k :: 0 <= k < |vars| ==> vars[k] in cols) && i < |rows|
    ensures Flat(Joined(cols, vars, found, rows[..i + 1]))
      == Flat(Joined(cols, vars, found, rows[..i])) + if Project(cols, vars, rows[i]) in found then rows[i] else []
  {
    hide Flat;
    assert rows[..i + 1][..i] == rows[..i];
    FlatSnoc(Joined(cols, vars, found, rows[..i]), rows[i]);
    assert Joined(cols, vars, found, rows[..i]) + [] == Joined(cols, vars, found, rows[..i]);
  }

  /** The row's cells of the variables. */
  method Cells(req: Request, i: nat, vars: seq<int>) returns (tmp: array<Id>)
    requires req.Valid() && i < |req.rows| && forall k :: 0 <= k < |vars| ==> vars[k] in req.cols
    ensures fresh(tmp) && tmp[..] == Project(req.cols, vars, req.rows[i])
  {
    hide Flat;
    tmp := new Id[|vars|](_ => 0);
    for c := 0 to |vars|
      invariant tmp[..c] == Project(req.cols, vars, req.rows[i])[..c]
    {
      assert vars[c] in req.cols;
      V2cRange(req.v2c, req.cols, req.nvars, vars[c]);
      tmp[c] := req.GetRowCol(i, req.Var2Col(vars[c]));
    }
  }

  lemma V2cRange(v2c: seq<int>, cols: seq<int>, nvars: nat, x: int)
    requires V2c(v2c, cols, nvars) && x in cols
    ensures 0 - nvars <= x < 0
  {
  }

  /** Step 5, more than two variables: sort the result and search it for every row. */
  method JoinSorted(req: Request, vars: seq<int>, table: seq<Id>, ghost found: seq<Row>) returns (updated: seq<Id>)
    requires req.Valid() && req.cols != [] && vars != [] && forall k :: 0 <= k < |vars| ==> vars[k] in req.cols
    requires Width(|vars|, found) && table == Flat(found)
    ensures updated == Flat(Joined(req.cols, vars, found, req.rows))
  {
    hide Flat, Joined;
    var a := new Id[|table|](i requires 0 <= i < |table| => table[i]);
    assert a[..] == table;
    ghost var sorted := TupleSort.QsortTuple(|vars|, a, found);
    updated := [];
    JoinedNone(req.cols, vars, found);
    for i := 0 to req.GetRowNum()
      invariant updated == Flat(Joined(req.cols, vars, found, req.rows[..i]))
      invariant a[..] == Flat(sorted)
    {
      var tmp := Cells(req, i, vars);
      OneRow(tmp[..]);
      var hit := TupleSort.BinarySearchTuple(|vars|, a, tmp, sorted, tmp[..]);
      SameRows(sorted, found, tmp[..]);
      JoinedStep(req.cols, vars, found, req.rows, i);
      if hit { updated := req.AppendRowTo(i, updated); }
    }
    assert req.rows[..|req.rows|] == req.rows;
  }

  lemma JoinedNone(cols: seq<int>, vars: seq<int>, found: seq<Row>)
    requires forall k :: 0 <= k < |vars| ==> vars[k] in cols
    ensures Flat(Joined(cols, vars, found, [])) == []
  {
  }

  lemma OneRow(x: Row)
    ensures Flat([x]) == x
  {
    FlatSnoc([], x);
    assert [] + [x] == [x];
  }

  lemma SameRows(a: seq<Row>, b: seq<Row>, x: Row)
    requires multiset(a) == multiset(b)
    ensures x in a <==> x in b
  {
    assert x in multiset(a) <==> x in multiset(b);
  }

  /** Step 5, two variables: put the result's pairs into a hash set. */
  method JoinHashed(req: Request, vars: seq<int>, table: seq<Id>, ghost found: seq<Row>) returns (updated: seq<Id>)
    requires req.Valid() && req.cols != [] && |vars| == 2 && forall k :: 0 <= k < |vars| ==> vars[k] in req.cols
    requires Width(2, found) && table == Flat(found)
    ensures updated == Flat(Joined(req.cols, vars, found, req.rows))
  {
    hide Flat, Joined;
    var pairs := PairSet(table, found);
    updated := [];
    JoinedNone(req.cols, vars, found);
    for i := 0 to req.GetRowNum()
      invariant updated == Flat(Joined(req.cols, vars, found, req.rows[..i]))
    {
      var tmp := Cells(req, i, vars);
      assert tmp[..] == [tmp[0], tmp[1]];
      JoinedStep(req.cols, vars, found, req.rows, i);
      if (tmp[0], tmp[1]) in pairs { updated := req.AppendRowTo(i, updated); }
    }
    assert req.rows[..|req.rows|] == req.rows;
  }

  method PairSet(table: seq<Id>, ghost found: seq<Row>) returns (pairs: set<(Id, Id)>)
    requires Width(2, found) && table == Flat(found)
    ensures forall x, y :: (x, y) in pairs <==> [x, y] in found
  {
    hide Flat;
    pairs := {};
    RowCount(2, found);
    for i := 0 to |table| / 2
      invariant forall x, y :: (x, y) in pairs <==> [x, y] in found[..i]
    {
      FlatAt(2, found, i, 0);
      FlatAt(2, found, i, 1);
      assert found[i] == [table[2 * i], table[2 * i + 1]];
      assert found[..i + 1] == found[..i] + [found[i]];
      pairs := pairs + {(table[2 * i + 0], table[2 * i + 1])};
    }
    assert found[..|found|] == found;
  }

  /** The join keeps the rows that satisfy the patterns. */
  lemma {:induction false} JoinedIsKept(st: Store, cols: seq<int>, vid: int, pats: seq<Pattern>, starts: seq<Id>, rows: seq<Row>)
    requires Shaped(cols, rows) && vid < 0 && vid in cols && Executable([vid], pats)
    requires forall k :: 0 <= k < |FinalCols([vid], pats)| ==> FinalCols([vid], pats)[k] in cols && FinalCols([vid], pats)[k] < 0
    requires forall i :: 0 <= i < |rows| ==> rows[i][ColOf(cols, vid)] in starts
    ensures AllBound(cols, pats)
    ensures Joined(cols, FinalCols([vid], pats), Explore(st, [vid], pats, StartRows(starts)), rows) == Kept(st, cols, pats, rows)
    decreases |rows|
  {
    hide Explore, PassesAll, Executable, FinalCols;
    FinalColsBind([vid], pats);
    ProjectBound(cols, FinalCols([vid], pats), pats);
    if rows != [] {
      var n := |rows| - 1;
      JoinedIsKept(st, cols, vid, pats, starts, rows[..n]);
      SemiJoin(st, cols, vid, pats, starts, rows[n]);
    }
  }

  /** The patterns of the co-run: a plan of their own from the subject of the first, with all
      their variables bound in the request. */
  ghost predicate CanCorun(cols: seq<int>, pats: seq<Pattern>) {
    && pats != [] && pats[0].subj < 0 && Executable([pats[0].subj], pats)
    && forall x :: x in FinalCols([pats[0].subj], pats) ==> x in cols
  }

  /** The semi-join is defined: on two variables, or on more if the binary search returns its
      result, which as written (utils/mymath.hpp) it does not. */
  predicate JoinDefined(pats: seq<Pattern>, searchReturns: bool)
    requires pats != []
  {
    var n := |FinalCols([pats[0].subj], pats)|;
    n == 2 || (n > 2 && searchReturns)
  }

  lemma CorunChecks(cols: seq<int>, pats: seq<Pattern>)
    requires cols != [] && CanCorun(cols, pats)
    ensures Checks(cols, pats)
  {
    var vid := pats[0].subj;
    FinalColsBind([vid], pats);
    forall j | 0 <= j < |pats|
      ensures Bound(cols, pats[j].subj) && Bound(cols, pats[j].obj) && pats[j].pred >= 0 && Supported(cols, pats[j])
    {
      ExecAt([vid], pats, j);
      FinalPrefix([vid], pats, j);
      InGrown(FinalCols([vid], pats[..j]), FinalCols([vid], pats));
      FinalColsGrow([vid], pats[..j]);
    }
  }

  /** Co-running the patterns from the request's step up to fetchStep leaves the request as
      running them one by one would: the same rows in the same order.  Unless there are no rows,
      it is not ok with a single variable, where the hash join reads a second cell that is not
      there, nor with three or more if the search does not return what it found. */
  method DoCorun(w: Worker, req: Request, fetchStep: nat, searchReturns: bool) returns (ok: bool)
    requires req.Valid() && req.cols != [] && req.step < fetchStep <= |req.patterns| && BlankIsolated(w.st)
    requires CanCorun(req.cols, req.patterns[req.step..fetchStep])
    modifies req
    ensures ok <==> old(req.rows) == [] || JoinDefined(req.patterns[old(req.step)..fetchStep], searchReturns)
    ensures !ok ==> unchanged(req)
    ensures ok ==> req.Valid() && req.step == fetchStep && req.cols == old(req.cols)
    ensures Executable(old(req.cols), req.patterns[old(req.step)..fetchStep]) && Shaped(old(req.cols), old(req.rows))
    ensures ok ==> req.rows == Explore(w.st, req.cols, req.patterns[old(req.step)..fetchStep], old(req.rows))
  {
    hide Flat, Explore, Executable, Joined, Kept, V2c, FinalCols;
    var pats := req.patterns[req.step..fetchStep];
    var vid := pats[0].subj;
    ghost var cols, rows := req.cols, req.rows;
    ghost var fin := FinalCols([vid], pats);
    CorunFacts(cols, pats, req.v2c, req.nvars);
    CorunChecks(cols, pats);
    ChecksKeep(w.st, cols, pats, rows);
    var starts := UniqueValues(req, req.Var2Col(vid));
    var sub, vars := MakeSubPlan(pats, vid);
    ExploreRenamed(w.st, vars, [vid], pats, StartRows(starts));
    assert NewCols(1) == [-1];
    RenamedBelow(vars, pats);
    var colNum, table;
    ghost var found;
    colNum, table, found := RunSubQuery(w, sub, |vars|, starts);
    var updated;
    if colNum > 2 {
      if req.GetRowNum() > 0 && !searchReturns { return false; }
      updated := JoinSorted(req, vars, table, found);
    } else if colNum == 2 {
      updated := JoinHashed(req, vars, table, found);
    } else {
      if req.GetRowNum() > 0 { return false; }
      updated := [];
      JoinedNone(cols, vars, found);
    }
    ok := true;
    JoinedIsKept(w.st, cols, vid, pats, starts, rows);
    req.table := updated;
    req.step := fetchStep;
    req.rows := Kept(w.st, cols, pats, rows);
  }

  lemma CorunFacts(cols: seq<int>, pats: seq<Pattern>, v2c: seq<int>, nvars: nat)
    requires CanCorun(cols, pats) && V2c(v2c, cols, nvars)
    ensures var vid := pats[0].subj; var fin := FinalCols([vid], pats);
      && vid in cols && 0 - nvars <= vid < 0 && Distinct(fin)
      && forall k :: 0 <= k < |fin| ==> fin[k] in cols && fin[k] < 0
  {
    var vid := pats[0].subj;
    var fin := FinalCols([vid], pats);
    FinalColsGrow([vid], pats);
    InGrown([vid], fin);
    FinalDistinct([vid], pats);
    assert vid in [vid];
    assert vid in fin;
    V2cRange(v2c, cols, nvars, vid);
    forall k | 0 <= k < |fin|
      ensures fin[k] in cols && fin[k] < 0
    {
      assert fin[k] in fin;
    }
  }

  // ---- the engine's loop over patterns ----

  /** Whether a request co-runs some of its patterns, and which. */
  datatype Corun = Off | On(corunStep: nat, fetchStep: nat, searchReturns: bool)

  /** The semi-join of the patterns to be co-run is not defined. */
  predicate JoinUndefined(pats: seq<Pattern>, c: Corun) {
    && c.On? && c.corunStep < c.fetchStep <= |pats|
    && !JoinDefined(pats[c.corunStep..c.fetchStep], c.searchReturns)
  }

  /** When the request gets to the co-run, it can be done. */
  ghost predicate CorunAhead(req: Request, c: Corun)
    requires req.Valid()
    reads req
  {
    c.On? && req.step < c.corunStep ==>
      c.corunStep < c.fetchStep <= |req.patterns|
      && CanCorun(FinalCols(req.cols, req.patterns[req.step..c.corunStep]), req.patterns[c.corunStep..c.fetchStep])
  }

  /** The co-run as a part of the run since the start. */
  method CorunPatterns(w: Worker, req: Request, fetchStep: nat, searchReturns: bool, ghost start: nat, ghost cols0: seq<int>, ghost rows0: seq<Row>) returns (ok: bool)
    requires req.Valid() && req.Ready() && req.cols != [] && start <= req.step < fetchStep <= |req.patterns| && BlankIsolated(w.st)
    requires CanCorun(req.cols, req.patterns[req.step..fetchStep])
    requires RanFrom(w.st, w.sid, req, start, cols0, rows0) && (cols0 == [] ==> start == 0 && 0 < req.step)
    modifies req
    ensures !ok ==> unchanged(req) && !JoinDefined(req.patterns[req.step..fetchStep], searchReturns)
    ensures ok ==> req.Valid() && req.Ready() && req.step == fetchStep && req.cols == old(req.cols)
    ensures ok ==> RanFrom(w.st, w.sid, req, start, cols0, rows0)
    ensures ok ==> Remaining(w.st, w.sid, req) == old(Remaining(w.st, w.sid, req))
    ensures ok ==> FinalCols(req.cols, req.patterns[req.step..]) == old(FinalCols(req.cols, req.patterns[req.step..]))
  {
    hide V2c, Flat, Explore, FirstRows, Executable, Ordered, FinalCols, CanCorun;
    ghost var pats, before, cols, rows := req.patterns, req.step, req.cols, req.rows;
    CorunKeepsCols(cols, pats[before..fetchStep]);
    ExecutableIff(cols, pats[before..]);
    assert pats[before..] == pats[before..fetchStep] + pats[fetchStep..];
    ExploreParts(w.st, cols, pats[before..fetchStep], pats[fetchStep..], rows);
    ExecutableIff(cols, pats[fetchStep..]);
    ok := DoCorun(w, req, fetchStep, searchReturns);
    if ok {
      assert Ran(w.st, cols, rows, pats[before..fetchStep], req.cols, req.rows);
      if cols0 == [] {
        RanMore(w.st, [pats[0].obj], FirstRows(w.st, w.sid, pats[0], req.tid, req.mtFactor), pats, 1, before, fetchStep, cols, rows, req.cols, req.rows);
      } else {
        RanMore(w.st, cols0, rows0, pats, start, before, fetchStep, cols, rows, req.cols, req.rows);
      }
    }
  }

  lemma CorunKeepsCols(cols: seq<int>, pats: seq<Pattern>)
    requires cols != [] && CanCorun(cols, pats)
    ensures Executable(cols, pats) && FinalCols(cols, pats) == cols
  {
    CorunChecks(cols, pats);
    ChecksRun(cols, pats);
  }

  /** One round of the loop: a pattern, and the co-run if it is due. */
  method OneRound(w: Worker, req: Request, c: Corun, ghost start: nat, ghost cols0: seq<int>, ghost rows0: seq<Row>) returns (r: Round)
    requires req.Valid() && req.Ready() && start <= req.step < |req.patterns| && BlankIsolated(w.st) && CorunAhead(req, c)
    requires (req.cols == [] ==> req.step == 0 && cols0 == []) && (cols0 == [] ==> start == 0)
    requires RanFrom(w.st, w.sid, req, start, cols0, rows0)
    modifies req
    ensures r == NoStart <==> old(req.FailsToStart())
    ensures r == NoStart ==> unchanged(req)
    ensures r == NoJoin ==> JoinUndefined(req.patterns, c)
    ensures r == Done ==> req.Valid() && req.Ready() && old(req.step) < req.step && req.cols != [] && CorunAhead(req, c)
    ensures r == Done ==> (c.Off? ==> req.step == old(req.step) + 1) && RanFrom(w.st, w.sid, req, start, cols0, rows0)
    ensures r == Done ==> Remaining(w.st, w.sid, req) == old(Remaining(w.st, w.sid, req))
    ensures r == Done ==> FinalCols(req.cols, req.patterns[req.step..]) == old(FinalCols(req.cols, req.patterns[req.step..]))
  {
    hide V2c, Flat, Explore, FirstRows, Ran, RanFrom, Remaining, Executable, Ordered, CanCorun;
    ghost var before, cols := req.step, req.cols;
    var ok := w.NextPattern(req, start, cols0, rows0);
    if !ok { return NoStart; }
    if c.On? && before < c.corunStep { ColsLater(cols, req.patterns, before, c.corunStep); }
    if c.On? && req.step == c.corunStep {
      ok := CorunPatterns(w, req, c.fetchStep, c.searchReturns, start, cols0, rows0);
      if !ok { return NoJoin; }
    }
    return Done;
  }

  datatype Round = Done | NoStart | NoJoin

  lemma ColsLater(cols: seq<int>, pats: seq<Pattern>, i: nat, j: nat)
    requires i < j <= |pats|
    ensures FinalCols(cols, pats[i..j]) == FinalCols(ColsAfter(cols, pats[i]), pats[i + 1..j])
    ensures i + 1 == j ==> FinalCols(cols, pats[i..j]) == ColsAfter(cols, pats[i])
  {
    assert pats[i..j][1..] == pats[i + 1..j] && pats[i..j][0] == pats[i];
  }

  /** Run patterns in place until the plan is done or a split is called for, co-running those that
      are to be.  Co-run or not, the rest of the plan still leads to the same table. */
  method ExecutePatterns(w: Worker, req: Request, c: Corun) returns (out: Outcome)
    requires req.Valid() && req.Ready() && req.step < |req.patterns| && BlankIsolated(w.st) && w.st.servers > 0
    requires (req.cols == [] ==> req.step == 0) && CorunAhead(req, c)
    modifies req
    ensures out.Asserted? <==> old(req.FailsToStart())
    ensures out.Asserted? ==> unchanged(req)
    ensures out.Undefined? ==> JoinUndefined(req.patterns, c)
    ensures Succeeded(out) ==> req.Valid() && req.Ready() && old(req.step) < req.step && req.cols != []
    ensures Succeeded(out) ==> Remaining(w.st, w.sid, req) == old(Remaining(w.st, w.sid, req))
    ensures Succeeded(out) ==> FinalCols(req.cols, req.patterns[req.step..]) == old(FinalCols(req.cols, req.patterns[req.step..]))
    ensures Succeeded(out) ==> (out.Finished? <==> req.step == |req.patterns|)
    ensures out.Finished? ==> req.rows == old(Remaining(w.st, w.sid, req)) && out.rowNum == |req.rows|
    ensures out.Forked? ==> Supported(req.cols, req.patterns[req.step]) && AreShares(out.subs, req, w.st.servers)
    ensures out.Forked? ==> w.Splits(|req.rows|)
    ensures Succeeded(out) && c.Off? ==> KeptOn(w, req, old(req.step), old(req.cols), old(req.rows), req.step)
    ensures Succeeded(out) && w.st.servers > 1 && !w.useRdma && c.Off? ==> req.step == old(req.step) + 1
    ensures w.st.servers == 1 ==> !out.Forked?
    ensures Succeeded(out) && old(req.cols) != [] ==>
      Ran(w.st, old(req.cols), old(req.rows), req.patterns[old(req.step)..req.step], req.cols, req.rows)
    ensures Succeeded(out) && old(req.cols) == [] ==> req.patterns[0].subj >= 0 && Ran(w.st, [req.patterns[0].obj],
      FirstRows(w.st, w.sid, req.patterns[0], req.tid, req.mtFactor), req.patterns[1..req.step], req.cols, req.rows)
  {
    hide V2c, Flat, Explore, StartList, FirstRows, Ran, RanFrom, CorunAhead, KeptOn, Ordered, Executable, Remaining, FinalCols, Supported;
    ghost var start, cols0, rows0 := req.step, req.cols, req.rows;
    RanStart(w.st, w.sid, req);
    NothingYet(w, req, start, cols0, rows0);
    while true
      invariant req.Valid() && req.Ready() && start <= req.step < |req.patterns| && CorunAhead(req, c)
      invariant req.cols == [] ==> req.step == 0 && cols0 == []
      invariant cols0 == [] ==> start == 0
      invariant req.FailsToStart() <==> old(req.FailsToStart())
      invariant req.FailsToStart() ==> unchanged(req)
      invariant Remaining(w.st, w.sid, req) == old(Remaining(w.st, w.sid, req))
      invariant FinalCols(req.cols, req.patterns[req.step..]) == old(FinalCols(req.cols, req.patterns[req.step..]))
      invariant w.st.servers > 1 && !w.useRdma ==> req.step == start
      invariant c.Off? ==> KeptOn(w, req, start, cols0, rows0, req.step + 1)
      invariant RanFrom(w.st, w.sid, req, start, cols0, rows0)
      decreases |req.patterns| - req.step
    {
      var r := OneRound(w, req, c, start, cols0, rows0);
      if r == NoStart { return Asserted; }
      if r == NoJoin { return Undefined; }
      RanMeans(w.st, w.sid, req, start, cols0, rows0);
      if req.step == |req.patterns| {
        AllRun(w.st, w.sid, req);
        return Finished(req.GetRowNum());
      }
      var fork := w.NeedForkJoin(req);
      if fork {
        NextSupported(req);
        var subs := w.GenerateSubQuery(req);
        return Forked(subs);
      }
      if c.Off? { WentOnHere(w, req, start, cols0, rows0); }
    }
  }

  lemma AllRun(st: Store, sid: nat, req: Request)
    requires req.Valid() && req.Ready() && req.cols != [] && req.step == |req.patterns|
    ensures Remaining(st, sid, req) == req.rows
  {
    ExploreDone(st, req.cols, req.rows);
    assert req.patterns[req.step..] == [];
  }

  lemma NextSupported(req: Request)
    requires req.Valid() && req.Ready() && req.cols != [] && req.step < |req.patterns|
    ensures Supported(req.cols, req.patterns[req.step])
  {
    assert req.patterns[req.step..][0] == req.patterns[req.step];
  }

  /** At none of the steps from the start up to `to` there were enough rows to split. */
  ghost predicate KeptOn(w: Worker, req: Request, start: nat, cols0: seq<int>, rows0: seq<Row>, to: nat) {
    forall j :: start < j < to ==> w.WentOn(req.patterns, req.tid, req.mtFactor, start, cols0, rows0, j)
  }

  lemma NothingYet(w: Worker, req: Request, start: nat, cols0: seq<int>, rows0: seq<Row>)
    ensures KeptOn(w, req, start, cols0, rows0, start + 1)
  {
  }

  lemma WentOnHere(w: Worker, req: Request, start: nat, cols0: seq<int>, rows0: seq<Row>)
    requires req.Valid() && start <= req.step && req.cols != [] && !w.Splits(|req.rows|)
    requires RanFrom(w.st, w.sid, req, start, cols0, rows0) && KeptOn(w, req, start, cols0, rows0, req.step)
    ensures KeptOn(w, req, start, cols0, rows0, req.step + 1)
  {
    hide Ran, FirstRows, V2c, Flat;
    assert RanTo(w.st, w.sid, req.patterns, req.tid, req.mtFactor, start, cols0, rows0, req.step, req.cols, req.rows);
  }

  predicate Succeeded(out: Outcome) { out.Finished? || out.Forked? }
}
