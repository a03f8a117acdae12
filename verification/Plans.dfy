/**
 * What a query plan is (core/planner.hpp): an order of the query's triple patterns, each taken
 * forwards or backwards, possibly after one pattern that starts from a predicate index.
 *
 * The module says when a list of patterns is such a plan, and proves that a plan has the same
 * solutions as its query and that only connected queries have one.
 */
module Plans {
  import opened Query
  import opened Seqs

  /** A triple pattern of a query: a constant predicate, at least one variable, and, if it asks for
      a type, a variable of that constant type. */
  predicate IsTriple(t: Pattern) {
    && t.dir == OUT
    && (t.subj < 0 || t.obj < 0) && t.subj != 0 && t.obj != 0
    && (if t.pred == TYPE_ID then t.subj < 0 && IsIndexId(t.obj) else IsIndexId(t.pred))
  }

  ghost predicate IsQuery(ts: seq<Pattern>) { forall i :: 0 <= i < |ts| ==> IsTriple(ts[i]) }

  function Backwards(t: Pattern): Pattern { Pattern(t.obj, t.pred, IN, t.subj) }

  predicate Realizes(q: Pattern, t: Pattern) { q == t || q == Backwards(t) }

  function FromSubjects(t: Pattern): Pattern { Pattern(t.pred, PREDICATE_ID, IN, t.subj) }

  function FromObjects(t: Pattern): Pattern { Pattern(t.pred, PREDICATE_ID, OUT, t.obj) }

  /** An index pattern that every solution of the triple satisfies. */
  predicate Implied(q: Pattern, t: Pattern) {
    t.subj < 0 && t.obj < 0 && (q == FromSubjects(t) || q == FromObjects(t))
  }

  predicate NoneSet(bits: seq<bool>) { forall i :: 0 <= i < |bits| ==> !bits[i] }

  predicate AllSet(bits: seq<bool>) { forall i :: 0 <= i < |bits| ==> bits[i] }

  /** The path realizes each triple whose bit is set exactly once, after at most one implied
      index pattern at its start. */
  ghost predicate Covers(ts: seq<Pattern>, bits: seq<bool>, path: seq<Pattern>)
    requires |bits| == |ts|
    decreases |path|
  {
    if path == [] then NoneSet(bits)
    else
      || (|path| == 1 && NoneSet(bits) && exists k :: 0 <= k < |ts| && Implied(path[0], ts[k]))
      || exists k :: CoversLast(ts, bits, path, k)
  }

  ghost predicate CoversLast(ts: seq<Pattern>, bits: seq<bool>, path: seq<Pattern>, k: int)
    requires |bits| == |ts| && path != []
    decreases |path|, 0
  {
    0 <= k < |ts| && bits[k] && Realizes(Last(path), ts[k]) && Covers(ts, bits[k := false], Front(path))
  }

  /** A path for the whole query, as the planner finds them. */
  ghost predicate IsPathFor(ts: seq<Pattern>, path: seq<Pattern>) {
    exists bits: seq<bool> :: |bits| == |ts| && AllSet(bits) && Covers(ts, bits, path) && Ordered([], path)
  }

  /** A plan: a path that the engine can run. */
  ghost predicate IsPlanFor(ts: seq<Pattern>, path: seq<Pattern>) {
    IsPathFor(ts, path) && Executable([], path)
  }

  // ---- a plan means what its query means ----

  lemma BackwardsSat(g: set<Triple>, t: Pattern, cols: seq<int>, row: Row)
    requires IsTriple(t) && |row| == |cols| && Bound(cols, t.subj) && Bound(cols, t.obj)
    ensures Sat(g, Backwards(t), cols, row) <==> Sat(g, t, cols, row)
  {
  }

  lemma ImpliedSat(g: set<Triple>, q: Pattern, t: Pattern, cols: seq<int>, row: Row)
    requires IsTriple(t) && Implied(q, t) && |row| == |cols| && Bound(cols, t.subj) && Bound(cols, t.obj) && Sat(g, t, cols, row)
    ensures Bound(cols, q.subj) && Bound(cols, q.obj) && q.pred >= 0 && Sat(g, q, cols, row)
  {
  }

  ghost predicate AllSat(g: set<Triple>, pats: seq<Pattern>, cols: seq<int>, row: Row) {
    && |row| == |cols| && AllBound(cols, pats) && forall j :: 0 <= j < |pats| ==> Sat(g, pats[j], cols, row)
  }

  lemma AllSatFront(g: set<Triple>, pats: seq<Pattern>, cols: seq<int>, row: Row)
    requires pats != [] && AllSat(g, pats, cols, row)
    ensures AllSat(g, Front(pats), cols, row)
    ensures Bound(cols, Last(pats).subj) && Bound(cols, Last(pats).obj) && Last(pats).pred >= 0
    ensures Sat(g, Last(pats), cols, row)
  {
  }

  /** Satisfying the path satisfies every triple it covers. */
  lemma {:induction false} PathToTriple(g: set<Triple>, ts: seq<Pattern>, bits: seq<bool>, path: seq<Pattern>, cols: seq<int>, row: Row, i: nat)
    requires IsQuery(ts) && |bits| == |ts| && Covers(ts, bits, path) && AllSat(g, path, cols, row)
    requires i < |ts| && bits[i]
    ensures Bound(cols, ts[i].subj) && Bound(cols, ts[i].obj) && Sat(g, ts[i], cols, row)
    decreases |path|
  {
    hide Sat;
    AllSatFront(g, path, cols, row);
    var k :| CoversLast(ts, bits, path, k);
    if k == i {
      BackwardsSat(g, ts[i], cols, row);
    } else {
      PathToTriple(g, ts, bits[k := false], Front(path), cols, row, i);
    }
  }

  /** Satisfying all triples satisfies every pattern of the path. */
  lemma {:induction false} TriplesToPath(g: set<Triple>, ts: seq<Pattern>, bits: seq<bool>, path: seq<Pattern>, cols: seq<int>, row: Row)
    requires IsQuery(ts) && |bits| == |ts| && Covers(ts, bits, path) && AllSat(g, ts, cols, row)
    ensures AllSat(g, path, cols, row)
    decreases |path|
  {
    hide Sat;
    if path != [] {
      if |path| == 1 && exists k :: 0 <= k < |ts| && Implied(path[0], ts[k]) {
        var k :| 0 <= k < |ts| && Implied(path[0], ts[k]);
        ImpliedSat(g, path[0], ts[k], cols, row);
      } else {
        var k :| CoversLast(ts, bits, path, k);
        TriplesToPath(g, ts, bits[k := false], Front(path), cols, row);
        BackwardsSat(g, ts[k], cols, row);
        assert path == Front(path) + [Last(path)];
      }
    }
  }

  lemma PlanMeansQuery(g: set<Triple>, ts: seq<Pattern>, path: seq<Pattern>, cols: seq<int>, row: Row)
    requires IsQuery(ts) && IsPathFor(ts, path)
    ensures AllSat(g, path, cols, row) <==> AllSat(g, ts, cols, row)
  {
    hide Sat;
    var bits: seq<bool> :| |bits| == |ts| && AllSet(bits) && Covers(ts, bits, path);
    if AllSat(g, path, cols, row) {
      forall i | 0 <= i < |ts|
        ensures Bound(cols, ts[i].subj) && Bound(cols, ts[i].obj) && Sat(g, ts[i], cols, row)
      {
        PathToTriple(g, ts, bits, path, cols, row, i);
      }
    }
    if AllSat(g, ts, cols, row) { TriplesToPath(g, ts, bits, path, cols, row); }
  }

  /** A solution table of the plan is a solution table of the query. */
  lemma PlanSolvesQuery(g: set<Triple>, ts: seq<Pattern>, path: seq<Pattern>, cols: seq<int>, rows: seq<Row>)
    requires IsQuery(ts) && IsPathFor(ts, path) && IsSolutionTable(g, path, cols, rows) && AllBound(cols, ts)
    ensures IsSolutionTable(g, ts, cols, rows)
  {
    hide Sat;
    forall r
      ensures r in rows <==> Solution(g, ts, cols, r)
    {
      PlanMeansQuery(g, ts, path, cols, r);
    }
  }

  // ---- the columns of a plan ----

  /** A path that ends in q: what it was before, and the columns q adds. */
  lemma LastStep(path: seq<Pattern>)
    requires path != [] && Ordered([], path)
    ensures Ordered([], Front(path)) && Joins(FinalCols([], Front(path)), Last(path))
    ensures FinalCols([], path) == ColsAfter(FinalCols([], Front(path)), Last(path))
  {
    assert path == Front(path) + [Last(path)];
    OrderedSnoc([], Front(path), Last(path));
    FinalColsSnoc([], Front(path), Last(path));
  }

  lemma {:induction false} CoveredBound(ts: seq<Pattern>, bits: seq<bool>, path: seq<Pattern>, i: nat)
    requires IsQuery(ts) && |bits| == |ts| && Covers(ts, bits, path) && Ordered([], path) && i < |ts| && bits[i]
    ensures Bound(FinalCols([], path), ts[i].subj) && Bound(FinalCols([], path), ts[i].obj)
    decreases |path|
  {
    LastStep(path);
    var k :| CoversLast(ts, bits, path, k);
    if k != i { CoveredBound(ts, bits[k := false], Front(path), i); }
  }

  /** A path binds every variable of its query, and can be run exactly unless its start fails. */
  lemma PlanBinds(ts: seq<Pattern>, path: seq<Pattern>)
    requires IsQuery(ts) && IsPathFor(ts, path)
    ensures Ordered([], path) && AllBound(FinalCols([], path), ts)
    ensures ts != [] ==> path != [] && (IsPlanFor(ts, path) <==> !StartFails(path[0]))
  {
    ExecutableIff([], path);
    var bits: seq<bool> :| |bits| == |ts| && AllSet(bits) && Covers(ts, bits, path);
    assert ts != [] ==> bits[0];
    forall i | 0 <= i < |ts|
      ensures Bound(FinalCols([], path), ts[i].subj) && Bound(FinalCols([], path), ts[i].obj)
    {
      CoveredBound(ts, bits, path, i);
    }
  }

  /** Nothing is left out and nothing is added but the index pattern. */
  lemma {:induction false} PlanLength(ts: seq<Pattern>, bits: seq<bool>, path: seq<Pattern>)
    requires |bits| == |ts| && Covers(ts, bits, path)
    ensures CountSet(bits) <= |path| <= CountSet(bits) + 1
    decreases |path|
  {
    if path == [] || (|path| == 1 && NoneSet(bits)) {
      CountNone(bits);
    } else {
      var k :| CoversLast(ts, bits, path, k);
      PlanLength(ts, bits[k := false], Front(path));
      CountClear(bits, k);
    }
  }

  function CountSet(bits: seq<bool>): nat {
    if bits == [] then 0 else CountSet(bits[1..]) + if bits[0] then 1 else 0
  }

  lemma {:induction false} CountNone(bits: seq<bool>)
    requires NoneSet(bits)
    ensures CountSet(bits) == 0
  {
    if bits != [] { CountNone(bits[1..]); }
  }

  lemma {:induction false} CountClear(bits: seq<bool>, k: nat)
    requires k < |bits| && bits[k]
    ensures CountSet(bits[k := false]) == CountSet(bits) - 1
  {
    if k > 0 {
      CountClear(bits[1..], k - 1);
      assert bits[k := false][1..] == bits[1..][k - 1 := false];
    }
  }

  lemma CountMark(bits: seq<bool>, k: nat)
    requires k < |bits| && !bits[k]
    ensures CountSet(bits[k := true]) == CountSet(bits) + 1 <= |bits|
  {
    CountClear(bits[k := true], k);
    assert bits[k := true][k := false] == bits;
    CountBound(bits[k := true]);
  }

  lemma {:induction false} CountBound(bits: seq<bool>)
    ensures CountSet(bits) <= |bits|
  {
    if bits != [] { CountBound(bits[1..]); }
  }

  /** Adding a pattern for one more triple. */
  lemma ExtendPath(ts: seq<Pattern>, bits: seq<bool>, path: seq<Pattern>, k: nat, q: Pattern)
    requires |bits| == |ts| && Covers(ts, bits, path) && Ordered([], path) && k < |ts| && !bits[k]
    requires Realizes(q, ts[k]) && Joins(FinalCols([], path), q)
    ensures Covers(ts, bits[k := true], path + [q]) && Ordered([], path + [q])
    ensures FinalCols([], path + [q]) == ColsAfter(FinalCols([], path), q)
  {
    assert bits[k := true][k := false] == bits && Front(path + [q]) == path && Last(path + [q]) == q;
    assert CoversLast(ts, bits[k := true], path + [q], k);
    OrderedSnoc([], path, q);
    FinalColsSnoc([], path, q);
  }

  /** Starting a path from a predicate index. */
  lemma IndexPath(ts: seq<Pattern>, bits: seq<bool>, k: nat, q: Pattern)
    requires IsQuery(ts) && |bits| == |ts| && NoneSet(bits) && k < |ts| && Implied(q, ts[k])
    ensures Covers(ts, bits, [q]) && Ordered([], [q]) && FinalCols([], [q]) == [q.obj]
  {
    OrderedSnoc([], [], q);
    FinalColsSnoc([], [], q);
    assert [] + [q] == [q];
  }

  // ---- only connected queries have a plan ----

  predicate HasVar(t: Pattern, v: int) { v < 0 && (v == t.subj || v == t.obj) }

  /** Two triples with a variable in common. */
  predicate Shares(t: Pattern, u: Pattern) { HasVar(u, t.subj) || HasVar(u, t.obj) }

  /** The triples cannot be parted into two groups without a variable in common. */
  ghost predicate Connected(ts: seq<Pattern>) {
    forall inside: seq<bool> :: |inside| == |ts| && !NoneSet(inside) && !AllSet(inside) ==> Crosses(ts, inside)
  }

  ghost predicate Crosses(ts: seq<Pattern>, inside: seq<bool>)
    requires |inside| == |ts|
  {
    exists i, j :: 0 <= i < |ts| && 0 <= j < |ts| && inside[i] && !inside[j] && Shares(ts[i], ts[j])
  }

  /** Everything that has variable v is on side b. */
  ghost predicate OnSide(ts: seq<Pattern>, inside: seq<bool>, b: bool, v: int)
    requires |inside| == |ts|
  {
    forall k :: 0 <= k < |ts| && HasVar(ts[k], v) ==> inside[k] == b
  }

  lemma SideOf(ts: seq<Pattern>, inside: seq<bool>, k: nat, v: int)
    requires |inside| == |ts| && !Crosses(ts, inside) && k < |ts| && HasVar(ts[k], v)
    ensures OnSide(ts, inside, inside[k], v)
  {
    forall j | 0 <= j < |ts| && HasVar(ts[j], v)
      ensures inside[j] == inside[k]
    {
      assert Shares(ts[k], ts[j]) && Shares(ts[j], ts[k]);
    }
  }

  /** A path stays on one side of a parting that nothing crosses. */
  lemma {:induction false} PathOnOneSide(ts: seq<Pattern>, inside: seq<bool>, bits: seq<bool>, path: seq<Pattern>) returns (b: bool)
    requires IsQuery(ts) && |inside| == |ts| == |bits| && !Crosses(ts, inside)
    requires Covers(ts, bits, path) && Ordered([], path)
    ensures forall k :: 0 <= k < |ts| && bits[k] ==> inside[k] == b
    ensures forall v :: v in FinalCols([], path) ==> OnSide(ts, inside, b, v)
    decreases |path|
  {
    hide OnSide, Ordered, FinalCols, Crosses;
    b := true;
    FinalColsNone();
    if path != [] {
      LastStep(path);
      var q := Last(path);
      if |path| == 1 {
        assert Front(path) == [];
        if k :| CoversLast(ts, bits, path, k) {
          b := inside[k];
          SideOf(ts, inside, k, q.obj);
          CoversNone(ts, bits[k := false], Front(path));
          assert forall j :: 0 <= j < |ts| && j != k ==> bits[j] == bits[k := false][j];
        } else {
          var k :| 0 <= k < |ts| && Implied(path[0], ts[k]);
          b := inside[k];
          SideOf(ts, inside, k, q.obj);
        }
      } else {
        var k :| CoversLast(ts, bits, path, k);
        b := PathOnOneSide(ts, inside, bits[k := false], Front(path));
        assert forall j :: 0 <= j < |ts| && j != k ==> bits[j] == bits[k := false][j];
        ColsNonEmpty(Front(path));
        SideIs(ts, inside, b, k, q.subj);
        if q.obj < 0 { SideOf(ts, inside, k, q.obj); }
      }
    }
  }

  lemma CoversNone(ts: seq<Pattern>, bits: seq<bool>, path: seq<Pattern>)
    requires |bits| == |ts| && Covers(ts, bits, path) && path == []
    ensures NoneSet(bits)
  {
  }

  lemma FinalColsNone()
    ensures FinalCols([], []) == []
  {
  }

  lemma SideIs(ts: seq<Pattern>, inside: seq<bool>, b: bool, k: nat, v: int)
    requires |inside| == |ts| && k < |ts| && HasVar(ts[k], v) && OnSide(ts, inside, b, v)
    ensures inside[k] == b
  {
  }

  lemma ColsNonEmpty(path: seq<Pattern>)
    requires path != [] && Ordered([], path)
    ensures FinalCols([], path) != []
  {
    LastStep(path);
  }

  lemma PlanConnected(ts: seq<Pattern>, path: seq<Pattern>)
    requires IsQuery(ts) && IsPathFor(ts, path)
    ensures Connected(ts)
  {
    var bits: seq<bool> :| |bits| == |ts| && AllSet(bits) && Covers(ts, bits, path) && Ordered([], path);
    forall inside: seq<bool> | |inside| == |ts| && !NoneSet(inside) && !AllSet(inside)
      ensures Crosses(ts, inside)
    {
      if !Crosses(ts, inside) {
        var b := PathOnOneSide(ts, inside, bits, path);
        assert false;
      }
    }
  }

  /** A triple that is not covered yet and has a bound variable. */
  predicate Extends(ts: seq<Pattern>, bits: seq<bool>, cols: seq<int>, k: int)
    requires |bits| == |ts|
  {
    0 <= k < |ts| && !bits[k] && (ts[k].subj in cols || ts[k].obj in cols)
  }

  /** In a connected query a path that covers not everything can be extended. */
  lemma ConnectedExtends(ts: seq<Pattern>, bits: seq<bool>, path: seq<Pattern>) returns (k: nat)
    requires IsQuery(ts) && Connected(ts) && |bits| == |ts| && !AllSet(bits)
    requires path != [] && Covers(ts, bits, path) && Ordered([], path)
    ensures Extends(ts, bits, FinalCols([], path), k)
  {
    if NoneSet(bits) {
      var i :| 0 <= i < |ts| && Implied(path[0], ts[i]);
      k := i;
      IndexPath(ts, bits, i, path[0]);
      assert path == [path[0]];
    } else {
      assert Crosses(ts, bits);
      var i, j :| 0 <= i < |ts| && 0 <= j < |ts| && bits[i] && !bits[j] && Shares(ts[i], ts[j]);
      CoveredBound(ts, bits, path, i);
      k := j;
    }
  }

  // ---- which paths can be run ----

  /** A triple whose constant is the id of a type or predicate, though it asks for no type: a path
      that starts from it fails. */
  predicate BadConstant(t: Pattern) { t.pred != TYPE_ID && (IsIndexId(t.subj) || IsIndexId(t.obj)) }

  /** The first pattern of a path is that of some triple, and fails exactly if its constant is bad. */
  lemma {:induction false} PathStart(ts: seq<Pattern>, bits: seq<bool>, path: seq<Pattern>) returns (k: nat)
    requires IsQuery(ts) && |bits| == |ts| && Covers(ts, bits, path) && Ordered([], path) && path != []
    ensures k < |ts| && (StartFails(path[0]) <==> BadConstant(ts[k]))
    decreases |path|
  {
    hide Ordered;
    LastStep(path);
    if j :| |path| == 1 && 0 <= j < |ts| && Implied(path[0], ts[j]) {
      k := j;
      assert IsTriple(ts[k]);
    } else {
      var j :| CoversLast(ts, bits, path, j);
      if |path| == 1 {
        k := j;
        assert IsTriple(ts[k]);
        assert Front(path) == [] && FinalCols([], []) == [];
      } else {
        k := PathStart(ts, bits[j := false], Front(path));
      }
    }
  }

  /** How a path starts from a triple: from its index, or from its constant. */
  function StartOf(t: Pattern): Pattern {
    if t.subj < 0 && t.obj < 0 then FromSubjects(t) else if t.subj >= 0 then t else Backwards(t)
  }

  /** In a connected query every triple can come first. */
  lemma StartFrom(ts: seq<Pattern>, k: nat) returns (path: seq<Pattern>)
    requires IsQuery(ts) && Connected(ts) && k < |ts|
    ensures IsPathFor(ts, path) && path != [] && path[0] == StartOf(ts[k])
  {
    hide Connected;
    var none := seq(|ts|, _ => false);
    var q := StartOf(ts[k]);
    assert IsTriple(ts[k]);
    if Implied(q, ts[k]) {
      IndexPath(ts, none, k, q);
      path := Complete(ts, none, [q]);
    } else {
      ExtendPath(ts, none, [], k, q);
      assert [] + [q] == [q];
      path := Complete(ts, none[k := true], [q]);
    }
  }

  lemma {:induction false} Complete(ts: seq<Pattern>, bits: seq<bool>, path: seq<Pattern>) returns (full: seq<Pattern>)
    requires IsQuery(ts) && Connected(ts) && |bits| == |ts| && path != [] && Covers(ts, bits, path) && Ordered([], path)
    ensures IsPathFor(ts, full) && full != [] && full[0] == path[0]
    decreases |ts| - CountSet(bits)
  {
    hide Connected, Covers, Ordered, FinalCols, CountSet;
    if AllSet(bits) {
      full := path;
    } else {
      var k := ConnectedExtends(ts, bits, path);
      assert IsTriple(ts[k]);
      var cols := FinalCols([], path);
      ColsNonEmpty(path);
      var q := if ts[k].subj in cols then ts[k] else Backwards(ts[k]);
      ColsNegative(path);
      ExtendPath(ts, bits, path, k, q);
      CountMark(bits, k);
      full := Complete(ts, bits[k := true], path + [q]);
    }
  }

  lemma {:induction false} ColsNegative(path: seq<Pattern>)
    requires Ordered([], path)
    ensures forall v :: v in FinalCols([], path) ==> v < 0
    decreases |path|
  {
    if path != [] {
      LastStep(path);
      ColsNegative(Front(path));
    }
  }

  lemma StartFailsIff(t: Pattern)
    requires IsTriple(t)
    ensures StartFails(StartOf(t)) <==> BadConstant(t)
  {
  }

  /** Every path of a connected query can be run exactly if no triple has a bad constant. */
  lemma EveryPathRunsIff(ts: seq<Pattern>)
    requires IsQuery(ts) && Connected(ts) && ts != []
    ensures (forall path :: IsPathFor(ts, path) ==> IsPlanFor(ts, path)) <==> forall k :: 0 <= k < |ts| ==> !BadConstant(ts[k])
  {
    hide Connected, Ordered, StartFails, BadConstant, StartOf;
    if forall path :: IsPathFor(ts, path) ==> IsPlanFor(ts, path) {
      forall k | 0 <= k < |ts|
        ensures !BadConstant(ts[k])
      {
        var path := StartFrom(ts, k);
        PlanBinds(ts, path);
        StartFailsIff(ts[k]);
      }
    } else {
      var path :| IsPathFor(ts, path) && !IsPlanFor(ts, path);
      PlanBinds(ts, path);
      var k := FirstTriple(ts, path);
    }
  }

  lemma FirstTriple(ts: seq<Pattern>, path: seq<Pattern>) returns (k: nat)
    requires IsQuery(ts) && IsPathFor(ts, path) && ts != []
    ensures path != [] && k < |ts| && (StartFails(path[0]) <==> BadConstant(ts[k]))
  {
    hide Ordered, StartFails, BadConstant;
    PlanBinds(ts, path);
    var bits: seq<bool> :| |bits| == |ts| && AllSet(bits) && Covers(ts, bits, path) && Ordered([], path);
    k := PathStart(ts, bits, path);
  }

  /** A query has a plan that can be run exactly if it is connected and some triple has no bad
      constant. */
  lemma SomePathRunsIff(ts: seq<Pattern>)
    requires IsQuery(ts) && ts != []
    ensures (exists path :: IsPlanFor(ts, path)) <==> Connected(ts) && exists k :: 0 <= k < |ts| && !BadConstant(ts[k])
  {
    hide Connected, Ordered, StartFails, BadConstant, StartOf;
    if path :| IsPlanFor(ts, path) {
      PlanConnected(ts, path);
      PlanBinds(ts, path);
      var k := FirstTriple(ts, path);
    }
    if Connected(ts) && exists k :: 0 <= k < |ts| && !BadConstant(ts[k]) {
      var k :| 0 <= k < |ts| && !BadConstant(ts[k]);
      var path := StartFrom(ts, k);
      PlanBinds(ts, path);
      StartFailsIff(ts[k]);
      assert IsPlanFor(ts, path);
    }
  }

  // ---- the order of the triples does not matter ----

  function Swap<T>(s: seq<T>, i: nat): (r: seq<T>)
    requires i < |s|
    ensures |r| == |s| && r[0] == s[i] && r[i] == s[0]
    ensures forall k :: 0 < k < |s| && k != i ==> r[k] == s[k]
  {
    s[0 := s[i]][i := s[0]]
  }

  /** Where position k goes. */
  function Moved(k: int, i: nat): int { if k == 0 then i else if k == i then 0 else k }

  lemma SwapAt<T>(s: seq<T>, i: nat, k: int)
    requires i < |s| && 0 <= k < |s|
    ensures 0 <= Moved(k, i) < |s| && Swap(s, i)[Moved(k, i)] == s[k] && Moved(Moved(k, i), i) == k
  {
  }

  lemma SwapTwice<T>(s: seq<T>, i: nat)
    requires i < |s|
    ensures Swap(Swap(s, i), i) == s
  {
  }

  lemma SwapClear(bits: seq<bool>, i: nat, k: int)
    requires i < |bits| && 0 <= k < |bits|
    ensures 0 <= Moved(k, i) < |bits| && Swap(bits, i)[Moved(k, i) := false] == Swap(bits[k := false], i)
  {
  }

  lemma SwapNone(bits: seq<bool>, i: nat)
    requires i < |bits|
    ensures NoneSet(Swap(bits, i)) == NoneSet(bits) && AllSet(Swap(bits, i)) == AllSet(bits)
  {
    var s := Swap(bits, i);
    forall k | 0 <= k < |bits|
      ensures s[Moved(k, i)] == bits[k] && bits[Moved(k, i)] == s[k]
    {
      SwapAt(bits, i, k);
      SwapAt(s, i, k);
      SwapTwice(bits, i);
    }
    assert forall k :: 0 <= k < |bits| ==> 0 <= Moved(k, i) < |bits|;
  }

  lemma {:induction false} CoversSwap(ts: seq<Pattern>, bits: seq<bool>, path: seq<Pattern>, i: nat)
    requires |bits| == |ts| && i < |ts| && Covers(ts, bits, path)
    ensures Covers(Swap(ts, i), Swap(bits, i), path)
    decreases |path|
  {
    hide Realizes, Implied;
    SwapNone(bits, i);
    if path != [] {
      if k :| CoversLast(ts, bits, path, k) {
        CoversSwap(ts, bits[k := false], Front(path), i);
        SwapClear(bits, i, k);
        SwapAt(ts, i, k);
        SwapAt(bits, i, k);
        assert CoversLast(Swap(ts, i), Swap(bits, i), path, Moved(k, i));
      } else {
        var k :| 0 <= k < |ts| && Implied(path[0], ts[k]);
        SwapAt(ts, i, k);
      }
    }
  }

  lemma PlanSwap(ts: seq<Pattern>, path: seq<Pattern>, i: nat)
    requires i < |ts| && IsPathFor(Swap(ts, i), path)
    ensures IsPathFor(ts, path)
  {
    var s := Swap(ts, i);
    var bits: seq<bool> :| |bits| == |s| && AllSet(bits) && Covers(s, bits, path) && Ordered([], path);
    CoversSwap(s, bits, path, i);
    SwapTwice(ts, i);
    SwapNone(bits, i);
  }

  lemma ConnectedSwap(ts: seq<Pattern>, i: nat)
    requires i < |ts| && Connected(ts)
    ensures Connected(Swap(ts, i))
  {
    var s := Swap(ts, i);
    forall inside: seq<bool> | |inside| == |s| && !NoneSet(inside) && !AllSet(inside)
      ensures Crosses(s, inside)
    {
      var back := Swap(inside, i);
      SwapNone(inside, i);
      assert Crosses(ts, back);
      var a, b :| 0 <= a < |ts| && 0 <= b < |ts| && back[a] && !back[b] && Shares(ts[a], ts[b]);
      SwapAt(ts, i, a);
      SwapAt(ts, i, b);
      SwapAt(back, i, a);
      SwapAt(back, i, b);
      SwapTwice(inside, i);
      assert inside[Moved(a, i)] && !inside[Moved(b, i)] && Shares(s[Moved(a, i)], s[Moved(b, i)]);
    }
  }
}
