/**
 * The planner's search (core/planner.hpp): depth first over all orders of the query's triples,
 * cutting off orders that cost more than the best one found.  The search extends and shrinks
 * one path, and keeps for every bound variable a stack of the constraints met so far.
 *
 * Cost estimates are an arbitrary function, and not a number (None) once a triple has been
 * picked whose predicate no triple of the data has: the estimate divides nought by nought.
 */
module Planner {
  import opened Query
  import opened Plans
  import opened Seqs
  import MS = MinStack

  type Rec = MS.SelectRecord

  datatype Option<T> = None | Some(value: T)

  const COST_THRESHOLD: real := 350.0

  // ---- statistics ----

  /** How many vertices have two given predicates, by the directions of the edges. */
  datatype FourNum = FourNum(outOut: nat, outIn: nat, inIn: nat, inOut: nat)

  type Stat = map<(int, int), FourNum>

  function Pair(stat: Stat, p1: int, p2: int): FourNum {
    if (p1, p2) in stat then stat[(p1, p2)] else FourNum(0, 0, 0, 0)
  }

  function Field(f: FourNum, d1: Dir, d2: Dir): nat {
    match (d1, d2)
    case (OUT, OUT) => f.outOut
    case (OUT, IN) => f.outIn
    case (IN, IN) => f.inIn
    case (IN, OUT) => f.inOut
  }

  /** The number of vertices counted for constraints (p1, d1) and (p2, d2) together; counts are
      kept under the smaller predicate first. */
  function Correlation(stat: Stat, p1: int, d1: Dir, p2: int, d2: Dir): nat {
    if p1 < p2 then Field(Pair(stat, p1, p2), d1, d2) else Field(Pair(stat, p2, p1), d2, d1)
  }

  /** The triple demands of variable v that it has an edge of predicate p in direction d, or,
      for a type, that it is of type p. */
  predicate Demands(t: Pattern, v: int, p: int, d: Dir) {
    || (v == t.subj < 0 && d == OUT && p == if t.pred == TYPE_ID then t.obj else t.pred)
    || (v == t.obj < 0 && d == IN && p == t.pred)
  }

  /** Two demands on one variable that no vertex was counted for. */
  ghost predicate Contradicts(ts: seq<Pattern>, stat: Stat, i: nat, j: nat, v: int, p1: int, d1: Dir, p2: int, d2: Dir) {
    && i < |ts| && j < |ts| && Demands(ts[i], v, p1, d1) && Demands(ts[j], v, p2, d2)
    && p1 != p2 && Correlation(stat, p1, d1, p2, d2) == 0
  }

  ghost predicate EmptyReason(ts: seq<Pattern>, stat: Stat) {
    exists i: nat, j: nat, v: int, p1: int, d1: Dir, p2: int, d2: Dir :: Contradicts(ts, stat, i, j, v, p1, d1, p2, d2)
  }

  // ---- stacks of constraints ----

  type Stacks = map<int, seq<Rec>>

  function StackOf(ms: Stacks, v: int): seq<Rec> { if v in ms then ms[v] else [] }

  function Push(ms: Stacks, v: int, r: Rec): Stacks { ms[v := StackOf(ms, v) + [r]] }

  function Pop(ms: Stacks, v: int): Stacks {
    if StackOf(ms, v) == [] then ms else ms[v := Front(StackOf(ms, v))]
  }

  function PopVars(ms: Stacks, vs: seq<int>): Stacks {
    if vs == [] then ms else PopVars(Pop(ms, Last(vs)), Front(vs))
  }

  ghost predicate SameStacks(a: Stacks, b: Stacks) { forall v :: StackOf(a, v) == StackOf(b, v) }

  /** The variables of a triple, in the order their stacks grow. */
  function VarsOf(t: Pattern): (vs: seq<int>)
    ensures |vs| <= 2
  {
    if t.subj < 0 && t.obj < 0 then [t.subj, t.obj]
    else if t.subj < 0 then [t.subj] else if t.obj < 0 then [t.obj] else []
  }

  /** The variables with constraints are the variables bound. */
  ghost predicate BoundOk(ms: Stacks, cols: seq<int>) {
    forall v :: v in cols <==> StackOf(ms, v) != []
  }

  ghost predicate Reason(ts: seq<Pattern>, v: int, r: Rec) {
    exists k :: 0 <= k < |ts| && Demands(ts[k], v, r.p, r.d)
  }

  /** Every constraint on a stack comes from a triple of the query. */
  ghost predicate Justified(ts: seq<Pattern>, ms: Stacks) {
    forall v, i :: 0 <= i < |StackOf(ms, v)| ==> Reason(ts, v, StackOf(ms, v)[i])
  }

  lemma StackAfterPush(ms: Stacks, v: int, r: Rec, x: int)
    ensures StackOf(Push(ms, v, r), x) == if x == v then StackOf(ms, v) + [r] else StackOf(ms, x)
  {
  }

  lemma StackAfterPop(ms: Stacks, v: int, x: int)
    ensures StackOf(Pop(ms, v), x) == if x == v && StackOf(ms, v) != [] then Front(StackOf(ms, v)) else StackOf(ms, x)
  {
  }

  lemma PopSame(a: Stacks, b: Stacks, v: int)
    requires SameStacks(a, b)
    ensures SameStacks(Pop(a, v), Pop(b, v))
  {
    forall x
      ensures StackOf(Pop(a, v), x) == StackOf(Pop(b, v), x)
    {
      StackAfterPop(a, v, x);
      StackAfterPop(b, v, x);
      assert StackOf(a, x) == StackOf(b, x) && StackOf(a, v) == StackOf(b, v);
    }
  }

  lemma {:induction false} PopVarsSame(a: Stacks, b: Stacks, vs: seq<int>)
    requires SameStacks(a, b)
    ensures SameStacks(PopVars(a, vs), PopVars(b, vs))
    decreases |vs|
  {
    if vs != [] {
      PopSame(a, b, Last(vs));
      PopVarsSame(Pop(a, Last(vs)), Pop(b, Last(vs)), Front(vs));
    }
  }

  lemma PopsPush(ms: Stacks, v: int, r: Rec)
    ensures SameStacks(Pop(Push(ms, v, r), v), ms)
  {
    forall x
      ensures StackOf(Pop(Push(ms, v, r), v), x) == StackOf(ms, x)
    {
      StackAfterPush(ms, v, r, x);
      StackAfterPush(ms, v, r, v);
      StackAfterPop(Push(ms, v, r), v, x);
    }
  }

  lemma PushJustified(ts: seq<Pattern>, ms: Stacks, v: int, r: Rec)
    requires Justified(ts, ms) && Reason(ts, v, r)
    ensures Justified(ts, Push(ms, v, r))
  {
    var ms' := Push(ms, v, r);
    forall x, i | 0 <= i < |StackOf(ms', x)|
      ensures Reason(ts, x, StackOf(ms', x)[i])
    {
      StackAfterPush(ms, v, r, x);
      if x == v && i == |StackOf(ms, v)| {
        assert StackOf(ms', x)[i] == r;
      } else {
        assert StackOf(ms', x)[i] == StackOf(ms, x)[i];
      }
    }
  }

  lemma SameJustified(ts: seq<Pattern>, a: Stacks, b: Stacks)
    requires Justified(ts, a) && SameStacks(a, b)
    ensures Justified(ts, b)
  {
    forall x, i | 0 <= i < |StackOf(b, x)|
      ensures Reason(ts, x, StackOf(b, x)[i])
    {
      assert StackOf(a, x) == StackOf(b, x);
    }
  }

  /** The records that a triple puts on the stacks. */
  function RecordsOf(t: Pattern, selectivity: (Pattern, int) -> real): (rs: seq<Rec>)
    ensures |rs| == |VarsOf(t)|
    ensures forall i :: 0 <= i < |rs| ==> Demands(t, VarsOf(t)[i], rs[i].p, rs[i].d)
  {
    var s := MS.SelectRecord(if t.pred == TYPE_ID then t.obj else t.pred, OUT, selectivity(t, t.subj));
    var o := MS.SelectRecord(t.pred, IN, selectivity(t, t.obj));
    if t.subj < 0 && t.obj < 0 then [s, o] else if t.subj < 0 then [s] else if t.obj < 0 then [o] else []
  }

  function PushAll(ms: Stacks, vs: seq<int>, rs: seq<Rec>): Stacks
    requires |vs| == |rs|
  {
    if vs == [] then ms else Push(PushAll(ms, Front(vs), Front(rs)), Last(vs), Last(rs))
  }

  /** Popping the same variables undoes the pushes. */
  lemma {:induction false} PopVarsPushAll(ms: Stacks, vs: seq<int>, rs: seq<Rec>)
    requires |vs| == |rs|
    ensures SameStacks(PopVars(PushAll(ms, vs, rs), vs), ms)
    decreases |vs|
  {
    if vs != [] {
      var below := PushAll(ms, Front(vs), Front(rs));
      PopsPush(below, Last(vs), Last(rs));
      PopVarsSame(Pop(PushAll(ms, vs, rs), Last(vs)), below, Front(vs));
      PopVarsPushAll(ms, Front(vs), Front(rs));
    }
  }

  lemma {:induction false} PushAllJustified(ts: seq<Pattern>, ms: Stacks, vs: seq<int>, rs: seq<Rec>, t: Pattern)
    requires |vs| == |rs| && Justified(ts, ms) && t in ts
    requires forall i :: 0 <= i < |vs| ==> Demands(t, vs[i], rs[i].p, rs[i].d)
    ensures Justified(ts, PushAll(ms, vs, rs))
    decreases |vs|
  {
    hide Demands, Justified;
    if vs != [] {
      PushAllJustified(ts, ms, Front(vs), Front(rs), t);
      assert Reason(ts, Last(vs), Last(rs));
      PushJustified(ts, PushAll(ms, Front(vs), Front(rs)), Last(vs), Last(rs));
    }
  }

  lemma {:induction false} PushAllBinds(ms: Stacks, vs: seq<int>, rs: seq<Rec>, v: int)
    requires |vs| == |rs|
    ensures StackOf(PushAll(ms, vs, rs), v) != [] <==> StackOf(ms, v) != [] || v in vs
    decreases |vs|
  {
    hide Push, StackOf;
    if vs != [] {
      PushAllBinds(ms, Front(vs), Front(rs), v);
      StackAfterPush(PushAll(ms, Front(vs), Front(rs)), Last(vs), Last(rs), v);
      assert v in vs <==> v in Front(vs) || v == Last(vs);
    }
  }

  // ---- how high the stacks get ----

  function Occurs(t: Pattern, v: int): nat {
    if v >= 0 then 0 else (if t.subj == v then 1 else 0) + if t.obj == v then 1 else 0
  }

  /** How often v occurs in the triples below n whose bits are set. */
  function Uses(ts: seq<Pattern>, bits: seq<bool>, v: int, n: nat): nat
    requires |bits| == |ts| && n <= |ts|
  {
    if n == 0 then 0 else Uses(ts, bits, v, n - 1) + if bits[n - 1] then Occurs(ts[n - 1], v) else 0
  }

  predicate FromIndex(path: seq<Pattern>, v: int) { path != [] && path[0].pred == PREDICATE_ID && path[0].obj == v }

  function Height(ts: seq<Pattern>, bits: seq<bool>, path: seq<Pattern>, v: int): nat
    requires |bits| == |ts|
  {
    Uses(ts, bits, v, |ts|) + if FromIndex(path, v) then 1 else 0
  }

  /** A variable's stack has one element for each of its occurrences, and one more if the path
      starts from an index at it. */
  ghost predicate Heights(ts: seq<Pattern>, bits: seq<bool>, path: seq<Pattern>, ms: Stacks)
    requires |bits| == |ts|
  {
    forall v :: |StackOf(ms, v)| == Height(ts, bits, path, v)
  }

  lemma {:induction false} UsesMark(ts: seq<Pattern>, bits: seq<bool>, v: int, n: nat, k: nat)
    requires |bits| == |ts| && n <= |ts| && k < |ts| && !bits[k]
    ensures Uses(ts, bits[k := true], v, n) == Uses(ts, bits, v, n) + if k < n then Occurs(ts[k], v) else 0
    decreases n
  {
    hide Occurs;
    if n > 0 { UsesMark(ts, bits, v, n - 1, k); }
  }

  lemma {:induction false} UsesNone(ts: seq<Pattern>, bits: seq<bool>, v: int, n: nat)
    requires |bits| == |ts| && n <= |ts| && NoneSet(bits)
    ensures Uses(ts, bits, v, n) == 0
    decreases n
  {
    if n > 0 { UsesNone(ts, bits, v, n - 1); }
  }

  /** Both ends of the triple are variable v. */
  predicate SelfLoop(t: Pattern, v: int) { v < 0 && t.subj == v && t.obj == v }

  lemma {:induction false} UsesMost(ts: seq<Pattern>, bits: seq<bool>, v: int, n: nat)
    requires |bits| == |ts| && n <= |ts|
    ensures Uses(ts, bits, v, n) <= 2 * n
    ensures Uses(ts, bits, v, n) == 2 * n <==> forall k :: 0 <= k < n ==> bits[k] && SelfLoop(ts[k], v)
    decreases n
  {
    if n > 0 { UsesMost(ts, bits, v, n - 1); }
  }

  /** The planner gives each variable a stack of twice as many elements as there are triples.
      That is enough, except once a path that starts from an index at v has taken in all triples
      and every one of them has v at both ends. */
  lemma StackFits(ts: seq<Pattern>, bits: seq<bool>, path: seq<Pattern>, ms: Stacks, v: int)
    requires |bits| == |ts| && Heights(ts, bits, path, ms)
    ensures |StackOf(ms, v)| <= 2 * |ts| <==>
      !(FromIndex(path, v) && forall k :: 0 <= k < |ts| ==> bits[k] && SelfLoop(ts[k], v))
  {
    UsesMost(ts, bits, v, |ts|);
    assert |StackOf(ms, v)| == Height(ts, bits, path, v);
  }

  // ---- which queries overflow a stack ----

  /** All triples of the query have one and the same variable at both ends. */
  ghost predicate AllLoops(ts: seq<Pattern>) {
    ts != [] && forall k :: 0 <= k < |ts| ==> SelfLoop(ts[k], ts[0].subj)
  }

  /** A stack that the triple has pushed to is higher than its array. */
  predicate TooHigh(ms: Stacks, t: Pattern, room: nat) {
    (t.subj < 0 && |StackOf(ms, t.subj)| > room) || (t.obj < 0 && |StackOf(ms, t.obj)| > room)
  }

  /** The search is on its first way down, in a query of loops, from an index or not yet begun. */
  ghost predicate Dives(ts: seq<Pattern>, minCost: Option<real>, path: seq<Pattern>) {
    minCost == None && AllLoops(ts) && (path == [] || FromIndex(path, ts[0].subj))
  }

  /** Stacks overflow for queries of loops only, and for those whenever the search dives. */
  ghost predicate FlowOk(ts: seq<Pattern>, before: bool, after: bool, dives: bool) {
    (before ==> after) && (after ==> before || AllLoops(ts)) && (dives ==> after)
  }

  /** After a pick: too high a stack means a query of loops, and in such a query the last pick of
      a path from an index makes it too high. */
  lemma PickFlow(ts: seq<Pattern>, bits: seq<bool>, path: seq<Pattern>, ms: Stacks, t: Pattern)
    requires |bits| == |ts| && t in ts && Heights(ts, bits, path, ms)
    ensures TooHigh(ms, t, 2 * |ts|) ==> AllLoops(ts)
    ensures AllLoops(ts) && AllSet(bits) && FromIndex(path, ts[0].subj) ==> TooHigh(ms, t, 2 * |ts|)
  {
    hide Heights, Uses;
    StackFits(ts, bits, path, ms, t.subj);
    StackFits(ts, bits, path, ms, t.obj);
    if TooHigh(ms, t, 2 * |ts|) {
      assert ts[0] in ts;
    }
    if AllLoops(ts) {
      var k :| 0 <= k < |ts| && ts[k] == t;
      assert SelfLoop(ts[k], ts[0].subj);
    }
  }

  lemma IndexFlow(ts: seq<Pattern>, bits: seq<bool>, ms: Stacks, k: nat, q: Pattern, rec: Rec)
    requires |bits| == |ts| && k < |ts| && Implied(q, ts[k])
    ensures |StackOf(Push(ms[q.obj := []], q.obj, rec), q.obj)| == 1 <= 2 * |ts|
    ensures AllLoops(ts) ==> FromIndex([q], ts[0].subj)
  {
    if AllLoops(ts) { assert SelfLoop(ts[k], ts[0].subj); }
  }

  lemma LoopTriple(ts: seq<Pattern>, k: nat)
    requires k < |ts|
    ensures AllLoops(ts) ==> ts[k].subj == ts[k].obj == ts[0].subj < 0
  {
    if AllLoops(ts) { assert SelfLoop(ts[k], ts[0].subj); }
  }

  /** On a path from an index at v the variable is bound. */
  lemma LoopIsBound(ts: seq<Pattern>, path: seq<Pattern>, k: nat)
    requires k < |ts| && path != [] && Ordered([], path)
    ensures AllLoops(ts) && FromIndex(path, ts[0].subj) ==> ts[k].subj in FinalCols([], path)
  {
    LoopTriple(ts, k);
    FirstBound(path);
  }

  lemma {:induction false} FirstBound(path: seq<Pattern>)
    requires path != [] && Ordered([], path)
    ensures path[0].obj in FinalCols([], path)
    decreases |path|
  {
    LastStep(path);
    if |path| > 1 { FirstBound(Front(path)); } else { assert Front(path) == []; NoCols(); }
  }

  lemma {:induction false} PushAllHeight(ms: Stacks, vs: seq<int>, rs: seq<Rec>, v: int)
    requires |vs| == |rs|
    ensures |StackOf(PushAll(ms, vs, rs), v)| == |StackOf(ms, v)| + multiset(vs)[v]
    decreases |vs|
  {
    hide Push, StackOf;
    if vs != [] {
      PushAllHeight(ms, Front(vs), Front(rs), v);
      StackAfterPush(PushAll(ms, Front(vs), Front(rs)), Last(vs), Last(rs), v);
      assert vs == Front(vs) + [Last(vs)];
    }
  }

  lemma VarsOccur(t: Pattern, v: int)
    ensures multiset(VarsOf(t))[v] == Occurs(t, v)
  {
  }

  lemma PickHeights(ts: seq<Pattern>, bits: seq<bool>, path: seq<Pattern>, ms: Stacks, k: nat, q: Pattern, rs: seq<Rec>)
    requires |bits| == |ts| && k < |ts| && !bits[k] && Heights(ts, bits, path, ms) && |rs| == |VarsOf(ts[k])|
    requires IsTriple(ts[k]) && Realizes(q, ts[k])
    ensures Heights(ts, bits[k := true], path + [q], PushAll(ms, VarsOf(ts[k]), rs))
  {
    hide Uses, StackOf, PushAll, VarsOf, Occurs;
    forall v
      ensures |StackOf(PushAll(ms, VarsOf(ts[k]), rs), v)| == Height(ts, bits[k := true], path + [q], v)
    {
      assert |StackOf(ms, v)| == Height(ts, bits, path, v);
      PushAllHeight(ms, VarsOf(ts[k]), rs, v);
      VarsOccur(ts[k], v);
      UsesMark(ts, bits, v, |ts|, k);
      assert q.pred != PREDICATE_ID;
      assert FromIndex(path + [q], v) <==> FromIndex(path, v);
    }
  }

  lemma SameHeights(ts: seq<Pattern>, bits: seq<bool>, path: seq<Pattern>, a: Stacks, b: Stacks)
    requires |bits| == |ts| && Heights(ts, bits, path, a) && SameStacks(b, a)
    ensures Heights(ts, bits, path, b)
  {
    forall v
      ensures |StackOf(b, v)| == Height(ts, bits, path, v)
    {
      assert StackOf(b, v) == StackOf(a, v) && |StackOf(a, v)| == Height(ts, bits, path, v);
    }
  }

  lemma IndexHeights(ts: seq<Pattern>, bits: seq<bool>, ms: Stacks, q: Pattern, rec: Rec)
    requires |bits| == |ts| && NoneSet(bits) && q.pred == PREDICATE_ID && BoundOk(ms, [])
    ensures Heights(ts, bits, [q], Push(ms[q.obj := []], q.obj, rec))
  {
    var ms1 := ms[q.obj := []];
    forall v
      ensures |StackOf(Push(ms1, q.obj, rec), v)| == Height(ts, bits, [q], v)
    {
      UsesNone(ts, bits, v, |ts|);
      StackAfterPush(ms1, q.obj, rec, v);
      assert v !in [] && StackOf(ms, v) == [];
    }
  }

  lemma StartHeights(ts: seq<Pattern>, bits: seq<bool>)
    requires |bits| == |ts| && NoneSet(bits)
    ensures Heights(ts, bits, [], map[])
  {
    forall v
      ensures |StackOf(map[], v)| == Height(ts, bits, [], v)
    {
      UsesNone(ts, bits, v, |ts|);
    }
  }

  // ---- the record of what was pushed ----

  function Enc(adds: seq<seq<int>>): seq<int> {
    if adds == [] then [] else Enc(Front(adds)) + Last(adds) + [|Last(adds)|]
  }

  lemma EncSnoc(adds: seq<seq<int>>, vs: seq<int>)
    ensures Enc(adds + [vs]) == Enc(adds) + vs + [|vs|]
  {
    assert Front(adds + [vs]) == adds;
  }

  lemma {:induction false} EncLength(adds: seq<seq<int>>)
    requires forall i :: 0 <= i < |adds| ==> |adds[i]| <= 2
    ensures |Enc(adds)| <= 3 * |adds|
  {
    if adds != [] { EncLength(Front(adds)); }
  }

  lemma PushAllOne(ms: Stacks, v: int, r: Rec)
    ensures PushAll(ms, [v], [r]) == Push(ms, v, r)
  {
    assert Front([v]) == [] && Front([r]) == [];
  }

  lemma PushAllShort(ms: Stacks, t: Pattern, selectivity: (Pattern, int) -> real)
    requires IsTriple(t)
    ensures PushAll(ms, VarsOf(t), RecordsOf(t, selectivity)) ==
      var rs := RecordsOf(t, selectivity);
      if t.subj < 0 && t.obj < 0 then Push(Push(ms, t.subj, rs[0]), t.obj, rs[1])
      else if t.subj < 0 then Push(ms, t.subj, rs[0]) else Push(ms, t.obj, rs[0])
  {
    var vs, rs := VarsOf(t), RecordsOf(t, selectivity);
    if |vs| == 2 {
      assert Front(vs) == [vs[0]] && Front(rs) == [rs[0]];
      PushAllOne(ms, vs[0], rs[0]);
    } else {
      assert vs == [vs[0]] && rs == [rs[0]];
      PushAllOne(ms, vs[0], rs[0]);
    }
  }

  // ---- costs ----

  /** A triple whose cost can be estimated: its predicate has been counted, or it asks for a type. */
  predicate Counted(t: Pattern, counted: int -> bool) { t.pred == TYPE_ID || counted(t.pred) }

  ghost predicate AllCounted(ts: seq<Pattern>, counted: int -> bool) {
    forall k :: 0 <= k < |ts| ==> Counted(ts[k], counted)
  }

  /** A cost is a number as long as all triples picked have been counted. */
  ghost predicate CostOk(ts: seq<Pattern>, counted: int -> bool, bits: seq<bool>, cost: Option<real>)
    requires |bits| == |ts|
  {
    cost.Some? <==> forall k :: 0 <= k < |ts| && bits[k] ==> Counted(ts[k], counted)
  }

  function Plus(cost: Option<real>, add: Option<real>): Option<real> {
    if cost.Some? && add.Some? then Some(cost.value + add.value) else None
  }

  /** Comparisons with what is not a number fail; no cost is above that of no plan. */
  predicate Above(cost: Option<real>, best: Option<real>) { cost.Some? && best.Some? && cost.value > best.value }

  lemma CostSame(ts: seq<Pattern>, counted: int -> bool, bits: seq<bool>, cost: Option<real>, newCost: Option<real>)
    requires |bits| == |ts| && CostOk(ts, counted, bits, cost) && (cost.Some? <==> newCost.Some?)
    ensures CostOk(ts, counted, bits, newCost)
  {
  }

  lemma FullCost(ts: seq<Pattern>, counted: int -> bool, bits: seq<bool>, cost: Option<real>)
    requires |bits| == |ts| && AllSet(bits) && CostOk(ts, counted, bits, cost)
    ensures cost.Some? <==> AllCounted(ts, counted)
  {
    hide Counted;
    assert forall k :: 0 <= k < |ts| ==> bits[k];
  }

  lemma CostMark(ts: seq<Pattern>, counted: int -> bool, bits: seq<bool>, k: nat, cost: Option<real>, add: Option<real>)
    requires |bits| == |ts| && k < |ts| && !bits[k] && CostOk(ts, counted, bits, cost)
    requires add.Some? <==> Counted(ts[k], counted)
    ensures CostOk(ts, counted, bits[k := true], Plus(cost, add))
  {
    hide Counted;
    var bits' := bits[k := true];
    if CostOk(ts, counted, bits, cost) && Plus(cost, add).None? {
      if cost.None? {
        var j :| 0 <= j < |ts| && bits[j] && !Counted(ts[j], counted);
        assert bits'[j];
      } else {
        assert bits'[k];
      }
    }
  }

  // ---- the cheapest path ----

  /** What the costs are made of. */
  datatype Costs = Costs(counted: int -> bool, addCost: (seq<Pattern>, Pattern) -> real)

  function StepCost(c: Costs, front: seq<Pattern>, q: Pattern): Option<real> {
    if q.pred == PREDICATE_ID || q.pred == TYPE_ID || c.counted(q.pred) then Some(c.addCost(front, q)) else None
  }

  /** The cost of a path: the sum over its patterns, each after those before it. */
  function PathCost(c: Costs, path: seq<Pattern>): Option<real> {
    if path == [] then Some(0.0) else Plus(PathCost(c, Front(path)), StepCost(c, Front(path), Last(path)))
  }

  lemma PathCostMore(c: Costs, path: seq<Pattern>, q: Pattern)
    ensures PathCost(c, path + [q]) == Plus(PathCost(c, path), StepCost(c, path, q))
  {
    assert Front(path + [q]) == path;
  }

  /** No more than; what is not a number is more than any. */
  predicate AtMost(a: Option<real>, b: Option<real>) { b.Some? ==> a.Some? && a.value <= b.value }

  /** The patterns for a triple that can come next, in the order in which they are tried. */
  ghost function Choices(t: Pattern, path: seq<Pattern>): (qs: seq<Pattern>)
    ensures |qs| <= 2
  {
    if path == [] then
      if t.subj < 0 && t.obj < 0 then [FromSubjects(t), FromObjects(t)] else if t.subj > 0 then [t] else [Backwards(t)]
    else
      var cols := FinalCols([], path);
      (if t.subj in cols then [t] else []) + (if t.obj in cols then [Backwards(t)] else [])
  }

  /** Neither the i-th of them nor an earlier one costs more than the limit: if one does, the rest
      is not tried. */
  ghost predicate Uncut(c: Costs, limit: Option<real>, path: seq<Pattern>, qs: seq<Pattern>, i: int) {
    0 <= i < |qs| && forall j :: 0 <= j <= i ==> !Above(PathCost(c, path + [qs[j]]), limit)
  }

  function NextBits(bits: seq<bool>, k: nat, q: Pattern): seq<bool>
    requires k < |bits|
  {
    if q.pred == PREDICATE_ID then bits else bits[k := true]
  }

  /** From the path, which stands for the triples whose bits are set, the search can get to the
      complete path `full` without being cut at the limit. */
  ghost predicate Open(c: Costs, ts: seq<Pattern>, limit: Option<real>, bits: seq<bool>, path: seq<Pattern>, full: seq<Pattern>)
    requires |bits| == |ts|
    decreases |full| - |path|, 1
  {
    (path == full && AllSet(bits)) || (|path| < |full| && exists k, i :: OpenVia(c, ts, limit, bits, path, full, k, i))
  }

  ghost predicate OpenVia(c: Costs, ts: seq<Pattern>, limit: Option<real>, bits: seq<bool>, path: seq<Pattern>, full: seq<Pattern>, k: int, i: int)
    requires |bits| == |ts| && |path| < |full|
    decreases |full| - |path|, 0
  {
    && 0 <= k < |ts| && !bits[k]
    && var qs, q := Choices(ts[k], path), full[|path|];
       && Uncut(c, limit, path, qs, i) && qs[i] == q
       && Open(c, ts, limit, NextBits(bits, k, q), path + [q], full)
  }

  /** The limit is no more than the cost of any complete path that can be got to. */
  ghost predicate BestFrom(c: Costs, ts: seq<Pattern>, limit: Option<real>, bits: seq<bool>, path: seq<Pattern>)
    requires |bits| == |ts|
  {
    forall full :: Open(c, ts, limit, bits, path, full) ==> AtMost(limit, PathCost(c, full))
  }

  /** The same for those that go on with triple k. */
  ghost predicate BestVia(c: Costs, ts: seq<Pattern>, limit: Option<real>, bits: seq<bool>, path: seq<Pattern>, k: int)
    requires |bits| == |ts|
  {
    forall full: seq<Pattern>, i: int :: |path| < |full| && OpenVia(c, ts, limit, bits, path, full, k, i) ==> AtMost(limit, PathCost(c, full))
  }

  lemma AboveLower(x: Option<real>, a: Option<real>, b: Option<real>)
    requires AtMost(a, b)
    ensures Above(x, b) ==> Above(x, a)
  {
  }

  lemma UncutLower(c: Costs, a: Option<real>, b: Option<real>, path: seq<Pattern>, qs: seq<Pattern>, i: int)
    requires AtMost(a, b) && Uncut(c, a, path, qs, i)
    ensures Uncut(c, b, path, qs, i)
  {
    hide PathCost;
    forall j | 0 <= j <= i
      ensures !Above(PathCost(c, path + [qs[j]]), b)
    {
      AboveLower(PathCost(c, path + [qs[j]]), a, b);
    }
  }

  /** With a lower limit fewer paths can be got to. */
  lemma {:induction false} OpenLower(c: Costs, ts: seq<Pattern>, a: Option<real>, b: Option<real>, bits: seq<bool>, path: seq<Pattern>, full: seq<Pattern>)
    requires |bits| == |ts| && AtMost(a, b) && Open(c, ts, a, bits, path, full)
    ensures Open(c, ts, b, bits, path, full)
    decreases |full| - |path|, 1
  {
    hide Choices, Uncut, PathCost;
    if !(path == full && AllSet(bits)) {
      var k, i :| OpenVia(c, ts, a, bits, path, full, k, i);
      OpenViaLower(c, ts, a, b, bits, path, full, k, i);
    }
  }

  lemma {:induction false} OpenViaLower(c: Costs, ts: seq<Pattern>, a: Option<real>, b: Option<real>, bits: seq<bool>, path: seq<Pattern>,
                                        full: seq<Pattern>, k: int, i: int)
    requires |bits| == |ts| && |path| < |full| && AtMost(a, b) && OpenVia(c, ts, a, bits, path, full, k, i)
    ensures OpenVia(c, ts, b, bits, path, full, k, i)
    decreases |full| - |path|, 0
  {
    hide Choices, PathCost;
    UncutLower(c, a, b, path, Choices(ts[k], path), i);
    OpenLower(c, ts, a, b, NextBits(bits, k, full[|path|]), path + [full[|path|]], full);
  }

  lemma BestLower(c: Costs, ts: seq<Pattern>, a: Option<real>, b: Option<real>, bits: seq<bool>, path: seq<Pattern>)
    requires |bits| == |ts| && AtMost(a, b) && BestFrom(c, ts, b, bits, path)
    ensures BestFrom(c, ts, a, bits, path)
  {
    hide Open, PathCost;
    forall full | Open(c, ts, a, bits, path, full)
      ensures AtMost(a, PathCost(c, full))
    {
      OpenLower(c, ts, a, b, bits, path, full);
    }
  }

  lemma BestViaLower(c: Costs, ts: seq<Pattern>, a: Option<real>, b: Option<real>, bits: seq<bool>, path: seq<Pattern>, k: int)
    requires |bits| == |ts| && AtMost(a, b) && BestVia(c, ts, b, bits, path, k)
    ensures BestVia(c, ts, a, bits, path, k)
  {
    hide OpenVia, PathCost;
    forall full: seq<Pattern>, i: int | |path| < |full| && OpenVia(c, ts, a, bits, path, full, k, i)
      ensures AtMost(a, PathCost(c, full))
    {
      OpenViaLower(c, ts, a, b, bits, path, full, k, i);
    }
  }

  lemma BestAtEnd(c: Costs, ts: seq<Pattern>, limit: Option<real>, bits: seq<bool>, path: seq<Pattern>)
    requires |bits| == |ts| && AllSet(bits) && AtMost(limit, PathCost(c, path))
    ensures BestFrom(c, ts, limit, bits, path)
  {
    hide PathCost, Choices;
    forall full | Open(c, ts, limit, bits, path, full)
      ensures AtMost(limit, PathCost(c, full))
    {
      OpenMeans(c, ts, limit, bits, path, full);
    }
  }

  lemma OpenMeans(c: Costs, ts: seq<Pattern>, limit: Option<real>, bits: seq<bool>, path: seq<Pattern>, full: seq<Pattern>)
    requires |bits| == |ts| && Open(c, ts, limit, bits, path, full)
    ensures AllSet(bits) ==> path == full
    ensures !AllSet(bits) ==> |path| < |full| && exists k, i :: OpenVia(c, ts, limit, bits, path, full, k, i)
  {
  }

  lemma BestOverTriples(c: Costs, ts: seq<Pattern>, limit: Option<real>, bits: seq<bool>, path: seq<Pattern>)
    requires |bits| == |ts| && !AllSet(bits) && forall k :: 0 <= k < |ts| && !bits[k] ==> BestVia(c, ts, limit, bits, path, k)
    ensures BestFrom(c, ts, limit, bits, path)
  {
    hide PathCost, Choices;
    forall full | Open(c, ts, limit, bits, path, full)
      ensures AtMost(limit, PathCost(c, full))
    {
      OpenMeans(c, ts, limit, bits, path, full);
      var k, i :| OpenVia(c, ts, limit, bits, path, full, k, i);
      assert BestVia(c, ts, limit, bits, path, k);
    }
  }

  /** A choice has been dealt with: the search has gone through it, or it has been cut. */
  ghost predicate Tackled(c: Costs, ts: seq<Pattern>, limit: Option<real>, bits: seq<bool>, path: seq<Pattern>, k: nat, q: Pattern)
    requires |bits| == |ts| && k < |ts|
  {
    BestFrom(c, ts, limit, NextBits(bits, k, q), path + [q]) || Above(PathCost(c, path + [q]), limit)
  }

  lemma TackledLower(c: Costs, ts: seq<Pattern>, a: Option<real>, b: Option<real>, bits: seq<bool>, path: seq<Pattern>, k: nat, q: Pattern)
    requires |bits| == |ts| && k < |ts| && AtMost(a, b) && Tackled(c, ts, b, bits, path, k, q)
    ensures Tackled(c, ts, a, bits, path, k, q)
  {
    hide BestFrom, PathCost;
    if BestFrom(c, ts, b, NextBits(bits, k, q), path + [q]) { BestLower(c, ts, a, b, NextBits(bits, k, q), path + [q]); }
  }

  /** All choices of a triple have been dealt with, or one has been cut. */
  lemma BestOverChoices(c: Costs, ts: seq<Pattern>, limit: Option<real>, bits: seq<bool>, path: seq<Pattern>, k: nat)
    requires |bits| == |ts| && k < |ts|
    requires var qs := Choices(ts[k], path);
      forall i :: 0 <= i < |qs| ==> Tackled(c, ts, limit, bits, path, k, qs[i]) || exists j :: 0 <= j < i && Above(PathCost(c, path + [qs[j]]), limit)
    ensures BestVia(c, ts, limit, bits, path, k)
  {
    hide PathCost, Choices, Open;
    var qs := Choices(ts[k], path);
    forall full: seq<Pattern>, i: int | |path| < |full| && OpenVia(c, ts, limit, bits, path, full, k, i)
      ensures AtMost(limit, PathCost(c, full))
    {
      assert Tackled(c, ts, limit, bits, path, k, qs[i]);
    }
  }

  /** On a path that has begun. */
  lemma EndsBest(c: Costs, ts: seq<Pattern>, limit: Option<real>, bits: seq<bool>, path: seq<Pattern>, k: nat)
    requires |bits| == |ts| && k < |ts| && path != []
    requires ts[k].subj in FinalCols([], path) ==> Tackled(c, ts, limit, bits, path, k, ts[k])
    requires ts[k].obj in FinalCols([], path) ==>
      || Tackled(c, ts, limit, bits, path, k, Backwards(ts[k]))
      || (ts[k].subj in FinalCols([], path) && Above(PathCost(c, path + [ts[k]]), limit))
    ensures BestVia(c, ts, limit, bits, path, k)
  {
    hide PathCost, Tackled, FinalCols;
    var qs := Choices(ts[k], path);
    forall i | 0 <= i < |qs|
      ensures Tackled(c, ts, limit, bits, path, k, qs[i]) || exists j :: 0 <= j < i && Above(PathCost(c, path + [qs[j]]), limit)
    {
      if i == 1 && !Tackled(c, ts, limit, bits, path, k, qs[1]) { assert Above(PathCost(c, path + [qs[0]]), limit); }
    }
    BestOverChoices(c, ts, limit, bits, path, k);
  }

  // the order of the triples makes no difference to what can be got to

  lemma SwapSet(bits: seq<bool>, i: nat, k: int, q: Pattern)
    requires i < |bits| && 0 <= k < |bits|
    ensures 0 <= Moved(k, i) < |bits| && NextBits(Swap(bits, i), Moved(k, i), q) == Swap(NextBits(bits, k, q), i)
  {
  }

  lemma {:induction false} OpenSwap(c: Costs, ts: seq<Pattern>, i: nat, limit: Option<real>, bits: seq<bool>, path: seq<Pattern>, full: seq<Pattern>)
    requires |bits| == |ts| && i < |ts| && Open(c, ts, limit, bits, path, full)
    ensures Open(c, Swap(ts, i), limit, Swap(bits, i), path, full)
    decreases |full| - |path|
  {
    hide Choices, Uncut, PathCost, Swap;
    SwapNone(bits, i);
    if !(path == full && AllSet(bits)) {
      var k, j :| OpenVia(c, ts, limit, bits, path, full, k, j);
      var q := full[|path|];
      OpenSwap(c, ts, i, limit, NextBits(bits, k, q), path + [q], full);
      SwapSet(bits, i, k, q);
      SwapAt(ts, i, k);
      SwapAt(bits, i, k);
      assert OpenVia(c, Swap(ts, i), limit, Swap(bits, i), path, full, Moved(k, i), j);
    }
  }

  ghost function NoBits(n: nat): (bits: seq<bool>)
    ensures |bits| == n && NoneSet(bits)
  {
    seq(n, _ => false)
  }

  lemma BestSwap(c: Costs, ts: seq<Pattern>, i: nat, limit: Option<real>)
    requires i < |ts| && BestFrom(c, Swap(ts, i), limit, NoBits(|ts|), [])
    ensures BestFrom(c, ts, limit, NoBits(|ts|), [])
  {
    hide Open, PathCost;
    var none := NoBits(|ts|);
    assert Swap(none, i) == none;
    forall full | Open(c, ts, limit, none, [], full)
      ensures AtMost(limit, PathCost(c, full))
    {
      OpenSwap(c, ts, i, limit, none, [], full);
    }
  }

  predicate HasNormal(t: Pattern) { t.subj >= NORMAL_ID || t.obj >= NORMAL_ID }

  /** The triple that is tried first: the first one with a normal vertex, or just the first. */
  ghost predicate IsFront(ts: seq<Pattern>, i: nat) {
    && i < |ts| && (forall j :: 0 <= j < i ==> !HasNormal(ts[j]))
    && (HasNormal(ts[i]) || (i == 0 && forall j :: 0 <= j < |ts| ==> !HasNormal(ts[j])))
  }

  /** The first complete path is taken if it is small, that is, cheap and from a normal vertex;
      otherwise one that costs no more than any complete path that can be got to. */
  ghost predicate Taken(c: Costs, ts: seq<Pattern>, order: seq<Pattern>, plan: seq<Pattern>)
    requires |order| == |ts|
  {
    && plan != [] && PathCost(c, plan).Some?
    && if NotSmall(c, order, NoBits(|ts|), []) then BestFrom(c, ts, PathCost(c, plan), NoBits(|ts|), [])
       else FirstOf(order, NoBits(|ts|), [], plan) && SmallPath(c, plan)
  }

  ghost predicate Cheapest(c: Costs, ts: seq<Pattern>, plan: seq<Pattern>) {
    exists i: nat :: IsFront(ts, i) && Taken(c, ts, Swap(ts, i), plan)
  }

  // what can be got to, if costs are not negative

  ghost predicate NotNegative(c: Costs) { forall front: seq<Pattern>, q: Pattern :: c.addCost(front, q) >= 0.0 }

  /** Somewhere the path takes the second of two directions of a triple, though the first one costs
      more than the limit: there the search gives up both. */
  ghost predicate Shadowed(c: Costs, ts: seq<Pattern>, limit: Option<real>, full: seq<Pattern>) {
    exists n: nat, k: nat :: ShadowedAt(c, ts, limit, full, n, k)
  }

  ghost predicate ShadowedAt(c: Costs, ts: seq<Pattern>, limit: Option<real>, full: seq<Pattern>, n: nat, k: nat) {
    n < |full| && k < |ts| &&
    var qs := Choices(ts[k], full[..n]);
    |qs| == 2 && full[n] == qs[1] && Above(PathCost(c, full[..n] + [qs[0]]), limit)
  }

  /** A path costs at least as much as its beginning. */
  lemma {:induction false} PrefixCost(c: Costs, full: seq<Pattern>, n: nat)
    requires NotNegative(c) && n <= |full| && PathCost(c, full).Some?
    ensures PathCost(c, full[..n]).Some? && PathCost(c, full[..n]).value <= PathCost(c, full).value
    decreases |full|
  {
    if n < |full| {
      PrefixCost(c, Front(full), n);
      assert Front(full)[..n] == full[..n];
    } else {
      assert full[..n] == full;
    }
  }

  /** The pattern a path ends with is one of the choices for its triple. */
  lemma LastIsChoice(ts: seq<Pattern>, path: seq<Pattern>, k: nat) returns (i: nat)
    requires IsQuery(ts) && k < |ts| && path != [] && Ordered([], path) && Realizes(Last(path), ts[k])
    ensures i < |Choices(ts[k], Front(path))| && Choices(ts[k], Front(path))[i] == Last(path) && Last(path).pred != PREDICATE_ID
  {
    LastStep(path);
    var t, q, front := ts[k], Last(path), Front(path);
    assert IsTriple(t);
    NoCols();
    if front != [] { ColsNonEmpty(front); }
    var qs := Choices(t, front);
    i := if q == qs[0] then 0 else 1;
  }

  /** What is not cut on the way can be got to from the start. */
  lemma {:induction false} FromStart(c: Costs, ts: seq<Pattern>, limit: Option<real>, bits: seq<bool>, path: seq<Pattern>, full: seq<Pattern>)
    requires IsQuery(ts) && |bits| == |ts| && Covers(ts, bits, path) && Ordered([], path) && path <= full
    requires Open(c, ts, limit, bits, path, full) && !Shadowed(c, ts, limit, full)
    requires forall n :: 0 <= n <= |full| ==> !Above(PathCost(c, full[..n]), limit)
    ensures Open(c, ts, limit, NoBits(|ts|), [], full)
    decreases |path|
  {
    hide Choices, PathCost, Ordered, Above, Shadowed;
    if path == [] {
      assert bits == NoBits(|ts|);
    } else {
      var front, q := Front(path), Last(path);
      LastStep(path);
      assert full[..|front|] == front && full[|front|] == q && path == front + [q];
      if |path| == 1 && NoneSet(bits) && exists k :: 0 <= k < |ts| && Implied(path[0], ts[k]) {
        var k :| 0 <= k < |ts| && Implied(path[0], ts[k]);
        var i := IndexIsChoice(ts[k], q);
        ChoiceUncut(c, ts, limit, full, front, k, i);
        assert NextBits(bits, k, q) == bits;
        assert OpenVia(c, ts, limit, bits, front, full, k, i);
        FromStart(c, ts, limit, bits, front, full);
      } else {
        var k :| CoversLast(ts, bits, path, k);
        var i := LastIsChoice(ts, path, k);
        ChoiceUncut(c, ts, limit, full, front, k, i);
        var before := bits[k := false];
        assert NextBits(before, k, q) == bits;
        assert OpenVia(c, ts, limit, before, front, full, k, i);
        FromStart(c, ts, limit, before, front, full);
      }
    }
  }

  lemma IndexIsChoice(t: Pattern, q: Pattern) returns (i: nat)
    requires Implied(q, t)
    ensures i < |Choices(t, [])| && Choices(t, [])[i] == q && q.pred == PREDICATE_ID
  {
    i := if q == FromSubjects(t) then 0 else 1;
  }

  lemma ChoiceUncut(c: Costs, ts: seq<Pattern>, limit: Option<real>, full: seq<Pattern>, front: seq<Pattern>, k: nat, i: nat)
    requires k < |ts| && |front| < |full| && full[..|front|] == front && i < |Choices(ts[k], front)|
    requires Choices(ts[k], front)[i] == full[|front|] && !Shadowed(c, ts, limit, full)
    requires forall n :: 0 <= n <= |full| ==> !Above(PathCost(c, full[..n]), limit)
    ensures Uncut(c, limit, front, Choices(ts[k], front), i)
  {
    hide Choices, PathCost, Above;
    var qs, n := Choices(ts[k], front), |front|;
    assert full[..n + 1] == front + [full[n]];
    assert !Above(PathCost(c, full[..n + 1]), limit);
    assert !ShadowedAt(c, ts, limit, full, n, k);
  }

  /** If costs are not negative, the plan costs no more than any other path for the query, except
      perhaps those that the search gave up together with a dearer direction of the same triple. */
  lemma CheapestUnlessShadowed(c: Costs, ts: seq<Pattern>, plan: seq<Pattern>, full: seq<Pattern>)
    requires IsQuery(ts) && NotNegative(c) && IsPathFor(ts, full)
    requires PathCost(c, plan).Some? && BestFrom(c, ts, PathCost(c, plan), NoBits(|ts|), [])
    ensures AtMost(PathCost(c, plan), PathCost(c, full)) || Shadowed(c, ts, PathCost(c, plan), full)
  {
    hide Open, PathCost, Choices, Ordered;
    var limit := PathCost(c, plan);
    if !AtMost(limit, PathCost(c, full)) && !Shadowed(c, ts, limit, full) {
      forall n | 0 <= n <= |full|
        ensures !Above(PathCost(c, full[..n]), limit)
      {
        PrefixCost(c, full, n);
      }
      var bits: seq<bool> :| |bits| == |ts| && AllSet(bits) && Covers(ts, bits, full) && Ordered([], full);
      assert Open(c, ts, limit, bits, full, full) by { OpenAtEnd(c, ts, limit, bits, full); }
      FromStart(c, ts, limit, bits, full, full);
      assert false;
    }
  }

  /** A triple with two variables has two paths, one from each index. */
  lemma TwoPaths(t: Pattern, path: seq<Pattern>)
    requires IsTriple(t) && t.subj < 0 && t.obj < 0 && t.subj != t.obj && IsPathFor([t], path)
    ensures path == [FromSubjects(t), t] || path == [FromObjects(t), Backwards(t)]
  {
    var bits: seq<bool> :| |bits| == 1 && AllSet(bits) && Covers([t], bits, path) && Ordered([], path);
    assert bits[0] && !NoneSet(bits) && path != [];
    var k := LastTriple([t], bits, path);
    assert bits[k := false] == [false];
    LastStep(path);
    var front := Front(path);
    assert path == front + [Last(path)];
    NoCols();
    OnlyIndex(t, front);
    assert front != [];
    IndexPath([t], [false], 0, front[0]);
    assert front == [front[0]];
  }

  lemma LastTriple(ts: seq<Pattern>, bits: seq<bool>, path: seq<Pattern>) returns (k: int)
    requires |bits| == |ts| && Covers(ts, bits, path) && path != [] && !NoneSet(bits)
    ensures CoversLast(ts, bits, path, k)
  {
    k :| CoversLast(ts, bits, path, k);
  }

  lemma OnlyIndex(t: Pattern, path: seq<Pattern>)
    requires Covers([t], [false], path)
    ensures path == [] || (|path| == 1 && Implied(path[0], t))
  {
    if k :| path != [] && CoversLast([t], [false], path, k) { assert false; }
  }

  /** For such a triple the plan is the cheaper of the two. */
  lemma OneTripleCheapest(c: Costs, t: Pattern, plan: seq<Pattern>)
    requires IsTriple(t) && t.subj < 0 && t.obj < 0 && t.subj != t.obj
    requires NotNegative(c) && Cheapest(c, [t], plan) && IsPathFor([t], plan)
    ensures AtMost(PathCost(c, plan), PathCost(c, [FromSubjects(t), t]))
    ensures AtMost(PathCost(c, plan), PathCost(c, [FromObjects(t), Backwards(t)]))
  {
    hide PathCost, BestFrom, Taken;
    OneIsBest(c, t, plan);
    TwoPaths(t, plan);
    var other := if plan == [FromSubjects(t), t] then [FromObjects(t), Backwards(t)] else [FromSubjects(t), t];
    IsOnePath(t);
    CheapestUnlessShadowed(c, [t], plan, other);
    PrefixCost(c, plan, 1);
    assert plan[..1] == [plan[0]];
    if Shadowed(c, [t], PathCost(c, plan), other) {
      var n: nat, k: nat :| ShadowedAt(c, [t], PathCost(c, plan), other, n, k);
      OnlyFirstShadows(c, t, PathCost(c, plan), other, n, k);
    }
  }

  /** Its first path starts from an index, so the search goes through both. */
  lemma OneIsBest(c: Costs, t: Pattern, plan: seq<Pattern>)
    requires IsTriple(t) && t.subj < 0 && t.obj < 0 && Cheapest(c, [t], plan)
    ensures PathCost(c, plan).Some? && BestFrom(c, [t], PathCost(c, plan), NoBits(1), [])
  {
    hide PathCost, BestFrom;
    var i: nat :| IsFront([t], i) && Taken(c, [t], Swap([t], i), plan);
    assert Swap([t], i) == [t];
    forall full
      ensures FirstOf([t], NoBits(1), [], full) ==> !SmallPath(c, full)
    {
      if FirstOf([t], NoBits(1), [], full) {
        assert !NoBits(1)[0];
        var k := FirstTripleOf([t], NoBits(1), [], full);
        FirstNext([t], NoBits(1), [], k, full);
        FirstPrefix([t], NextBits(NoBits(1), k, FromSubjects(t)), [] + [FromSubjects(t)], full);
        assert full[0] == FromSubjects(t);
      }
    }
  }

  lemma IsOnePath(t: Pattern)
    requires IsTriple(t) && t.subj < 0 && t.obj < 0
    ensures IsPathFor([t], [FromSubjects(t), t]) && IsPathFor([t], [FromObjects(t), Backwards(t)])
  {
    IndexPath([t], [false], 0, FromSubjects(t));
    IndexPath([t], [false], 0, FromObjects(t));
    ExtendPath([t], [false], [FromSubjects(t)], 0, t);
    ExtendPath([t], [false], [FromObjects(t)], 0, Backwards(t));
    assert [false][0 := true] == [true];
    assert [FromSubjects(t)] + [t] == [FromSubjects(t), t] && [FromObjects(t)] + [Backwards(t)] == [FromObjects(t), Backwards(t)];
  }

  lemma OnlyFirstShadows(c: Costs, t: Pattern, limit: Option<real>, full: seq<Pattern>, n: nat, k: nat)
    requires IsTriple(t) && t.subj < 0 && t.obj < 0 && t.subj != t.obj && ShadowedAt(c, [t], limit, full, n, k)
    requires full == [FromSubjects(t), t] || full == [FromObjects(t), Backwards(t)]
    ensures full == [FromObjects(t), Backwards(t)] && Above(PathCost(c, [FromSubjects(t)]), limit)
  {
    hide PathCost;
    IndexPath([t], [false], 0, FromSubjects(t));
    IndexPath([t], [false], 0, FromObjects(t));
    assert full[..1] == [full[0]] && |Choices(t, full[..1])| < 2;
    assert full[..0] == [] && [] + [FromSubjects(t)] == [FromSubjects(t)];
  }

  lemma OpenAtEnd(c: Costs, ts: seq<Pattern>, limit: Option<real>, bits: seq<bool>, full: seq<Pattern>)
    requires |bits| == |ts| && AllSet(bits)
    ensures Open(c, ts, limit, bits, full, full)
  {
  }

  /** At its start. */
  lemma StartBest(c: Costs, ts: seq<Pattern>, limit: Option<real>, bits: seq<bool>, k: nat)
    requires |bits| == |ts| && k < |ts|
    requires var t := ts[k];
      if t.subj < 0 && t.obj < 0 then
        && Tackled(c, ts, limit, bits, [], k, FromSubjects(t))
        && (Tackled(c, ts, limit, bits, [], k, FromObjects(t)) || Above(PathCost(c, [] + [FromSubjects(t)]), limit))
      else Tackled(c, ts, limit, bits, [], k, if t.subj > 0 then t else Backwards(t))
    ensures BestVia(c, ts, limit, bits, [], k)
  {
    hide PathCost, Tackled;
    var qs := Choices(ts[k], []);
    forall i | 0 <= i < |qs|
      ensures Tackled(c, ts, limit, bits, [], k, qs[i]) || exists j :: 0 <= j < i && Above(PathCost(c, [] + [qs[j]]), limit)
    {
      if i == 1 && !Tackled(c, ts, limit, bits, [], k, qs[1]) { assert Above(PathCost(c, [] + [qs[0]]), limit); }
    }
    BestOverChoices(c, ts, limit, bits, [], k);
  }

  lemma PickCost(c: Costs, ts: seq<Pattern>, k: nat, path: seq<Pattern>, q: Pattern, bits: seq<bool>)
    requires k < |ts| == |bits| && IsTriple(ts[k]) && Realizes(q, ts[k])
    ensures StepCost(c, path, q) == if Counted(ts[k], c.counted) then Some(c.addCost(path, q)) else None
    ensures PathCost(c, path + [q]) == Plus(PathCost(c, path), StepCost(c, path, q)) && NextBits(bits, k, q) == bits[k := true]
  {
    PathCostMore(c, path, q);
  }

  lemma IndexCost(c: Costs, t: Pattern, path: seq<Pattern>, q: Pattern, bits: seq<bool>, k: nat)
    requires Implied(q, t) && k < |bits|
    ensures PathCost(c, path + [q]) == Plus(PathCost(c, path), Some(c.addCost(path, q))) && NextBits(bits, k, q) == bits
  {
    PathCostMore(c, path, q);
  }

  // ---- the first complete path ----

  /** Triple k is the first that can come next. */
  ghost predicate Least(ts: seq<Pattern>, bits: seq<bool>, path: seq<Pattern>, k: int)
    requires |bits| == |ts|
  {
    && 0 <= k < |ts| && !bits[k] && Choices(ts[k], path) != []
    && NoneBelow(ts, bits, path, k)
  }

  ghost predicate NoneBelow(ts: seq<Pattern>, bits: seq<bool>, path: seq<Pattern>, k: int)
    requires |bits| == |ts| && k <= |ts|
  {
    forall j :: 0 <= j < k && !bits[j] ==> Choices(ts[j], path) == []
  }

  /** The path that the search completes first: always the first triple that can come next, in the
      first direction. */
  ghost predicate FirstOf(ts: seq<Pattern>, bits: seq<bool>, path: seq<Pattern>, full: seq<Pattern>)
    requires |bits| == |ts|
    decreases |full| - |path|, 1
  {
    if AllSet(bits) then path == full else |path| < |full| && exists k :: FirstVia(ts, bits, path, full, k)
  }

  ghost predicate FirstVia(ts: seq<Pattern>, bits: seq<bool>, path: seq<Pattern>, full: seq<Pattern>, k: int)
    requires |bits| == |ts| && |path| < |full|
    decreases |full| - |path|, 0
  {
    && Least(ts, bits, path, k)
    && var q := Choices(ts[k], path)[0];
       full[|path|] == q && FirstOf(ts, NextBits(bits, k, q), path + [q], full)
  }

  ghost predicate SmallPath(c: Costs, full: seq<Pattern>) {
    full != [] && PathCost(c, full).Some? && PathCost(c, full).value < COST_THRESHOLD && full[0].subj >= NORMAL_ID
  }

  /** The search goes on exactly if the first complete path is not small. */
  ghost predicate FirstSays(c: Costs, ts: seq<Pattern>, bits: seq<bool>, path: seq<Pattern>, ctn: bool, found: seq<Pattern>)
    requires |bits| == |ts|
  {
    if ctn then NotSmall(c, ts, bits, path) else FirstOf(ts, bits, path, found) && SmallPath(c, found)
  }

  ghost predicate NotSmall(c: Costs, ts: seq<Pattern>, bits: seq<bool>, path: seq<Pattern>)
    requires |bits| == |ts|
  {
    forall full :: FirstOf(ts, bits, path, full) ==> !SmallPath(c, full)
  }

  lemma {:induction false} FirstPrefix(ts: seq<Pattern>, bits: seq<bool>, path: seq<Pattern>, full: seq<Pattern>)
    requires |bits| == |ts| && FirstOf(ts, bits, path, full)
    ensures path <= full
    decreases |full| - |path|
  {
    hide Choices, NoneBelow;
    if !AllSet(bits) {
      var k :| FirstVia(ts, bits, path, full, k);
      var q := Choices(ts[k], path)[0];
      FirstPrefix(ts, NextBits(bits, k, q), path + [q], full);
      assert (path + [q])[..|path|] == path;
    }
  }

  lemma LeastIsOne(ts: seq<Pattern>, bits: seq<bool>, path: seq<Pattern>, j: int, k: int)
    requires |bits| == |ts| && Least(ts, bits, path, j) && Least(ts, bits, path, k)
    ensures j == k
  {
    hide Choices;
  }

  /** There is one first path at most. */
  lemma {:induction false} FirstIsOne(ts: seq<Pattern>, bits: seq<bool>, path: seq<Pattern>, a: seq<Pattern>, b: seq<Pattern>)
    requires |bits| == |ts| && FirstOf(ts, bits, path, a) && FirstOf(ts, bits, path, b)
    ensures a == b
    decreases |a| - |path|
  {
    hide Choices, NoneBelow;
    if !AllSet(bits) {
      var j :| FirstVia(ts, bits, path, a, j);
      var k :| FirstVia(ts, bits, path, b, k);
      LeastIsOne(ts, bits, path, j, k);
      var q := Choices(ts[k], path)[0];
      FirstIsOne(ts, NextBits(bits, k, q), path + [q], a, b);
    }
  }

  /** What the first triple that can come next says, is said. */
  lemma FirstStep(c: Costs, ts: seq<Pattern>, bits: seq<bool>, path: seq<Pattern>, k: int, ctn: bool, found: seq<Pattern>)
    requires |bits| == |ts| && Least(ts, bits, path, k)
    requires FirstSays(c, ts, NextBits(bits, k, Choices(ts[k], path)[0]), path + [Choices(ts[k], path)[0]], ctn, found)
    ensures FirstSays(c, ts, bits, path, ctn, found)
  {
    hide Choices, SmallPath;
    var q := Choices(ts[k], path)[0];
    if ctn {
      forall full | FirstOf(ts, bits, path, full)
        ensures !SmallPath(c, full)
      {
        FirstNext(ts, bits, path, k, full);
      }
    } else {
      FirstPrefix(ts, NextBits(bits, k, q), path + [q], found);
      assert (path + [q])[|path|] == q;
      assert FirstVia(ts, bits, path, found, k);
    }
  }

  lemma FirstNext(ts: seq<Pattern>, bits: seq<bool>, path: seq<Pattern>, k: int, full: seq<Pattern>)
    requires |bits| == |ts| && Least(ts, bits, path, k) && FirstOf(ts, bits, path, full)
    ensures FirstOf(ts, NextBits(bits, k, Choices(ts[k], path)[0]), path + [Choices(ts[k], path)[0]], full)
  {
    hide Choices, NoneBelow;
    assert !AllSet(bits);
    var j :| FirstVia(ts, bits, path, full, j);
    LeastIsOne(ts, bits, path, j, k);
  }

  lemma FirstAtEnd(c: Costs, ts: seq<Pattern>, bits: seq<bool>, path: seq<Pattern>, ctn: bool)
    requires |bits| == |ts| && AllSet(bits) && (ctn <==> !SmallPath(c, path))
    ensures FirstSays(c, ts, bits, path, ctn, path)
  {
  }

  /** Without a triple that can come next there is no first path. */
  lemma NoFirst(c: Costs, ts: seq<Pattern>, bits: seq<bool>, path: seq<Pattern>)
    requires |bits| == |ts| && !AllSet(bits) && NoneBelow(ts, bits, path, |ts|)
    ensures NotSmall(c, ts, bits, path)
  {
    hide Choices, SmallPath;
    forall full
      ensures !FirstOf(ts, bits, path, full)
    {
      FirstMeans(ts, bits, path, full);
    }
  }

  lemma FirstMeans(ts: seq<Pattern>, bits: seq<bool>, path: seq<Pattern>, full: seq<Pattern>)
    requires |bits| == |ts| && !AllSet(bits)
    ensures FirstOf(ts, bits, path, full) ==> !NoneBelow(ts, bits, path, |ts|)
  {
    hide Choices;
    if FirstOf(ts, bits, path, full) {
      var k := FirstTripleOf(ts, bits, path, full);
    }
  }

  lemma FirstTripleOf(ts: seq<Pattern>, bits: seq<bool>, path: seq<Pattern>, full: seq<Pattern>) returns (k: int)
    requires |bits| == |ts| && !AllSet(bits) && FirstOf(ts, bits, path, full)
    ensures Least(ts, bits, path, k)
  {
    hide Choices;
    k :| FirstVia(ts, bits, path, full, k);
  }

  lemma SmallIsNumber(c: Costs, path: seq<Pattern>)
    ensures SmallPath(c, path) ==> PathCost(c, path).Some?
  {
  }

  lemma NoneBelowNext(ts: seq<Pattern>, bits: seq<bool>, path: seq<Pattern>, k: nat)
    requires |bits| == |ts| && k < |ts|
    ensures NoneBelow(ts, bits, path, k) && (bits[k] || Choices(ts[k], path) == []) ==> NoneBelow(ts, bits, path, k + 1)
    ensures NoneBelow(ts, bits, path, k) && !bits[k] && Choices(ts[k], path) != [] ==> Least(ts, bits, path, k)
    ensures NoneBelow(ts, bits, path, 0)
  {
    hide Choices;
  }

  lemma ChoicesExtend(ts: seq<Pattern>, bits: seq<bool>, path: seq<Pattern>, k: nat)
    requires |bits| == |ts| && k < |ts| && !bits[k]
    ensures Choices(ts[k], path) != [] <==> path == [] || Extends(ts, bits, FinalCols([], path), k)
  {
  }

  lemma StartChoices(t: Pattern, bits: seq<bool>, k: nat)
    requires IsTriple(t) && k < |bits|
    ensures var qs := Choices(t, []);
      qs != [] && (if t.subj < 0 && t.obj < 0 then qs[0] == FromSubjects(t) && NextBits(bits, k, qs[0]) == bits
                   else qs[0] == (if t.subj > 0 then t else Backwards(t)) && NextBits(bits, k, qs[0]) == bits[k := true])
  {
  }

  lemma EndChoices(t: Pattern, path: seq<Pattern>, bits: seq<bool>, k: nat)
    requires IsTriple(t) && k < |bits| && path != []
    ensures var qs, cols := Choices(t, path), FinalCols([], path);
      && (qs == [] <==> t.subj !in cols && t.obj !in cols)
      && (t.subj in cols ==> qs[0] == t)
      && (t.subj !in cols && t.obj in cols ==> qs[0] == Backwards(t))
      && (qs != [] ==> NextBits(bits, k, qs[0]) == bits[k := true])
  {
  }

  // ---- queries that must be found empty ----

  /** On every variable that two triples share, no vertex was counted for both. */
  ghost predicate Clash(a: Pattern, b: Pattern, stat: Stat) {
    forall v: int, p1: int, d1: Dir, p2: int, d2: Dir :: Demands(a, v, p1, d1) && Demands(b, v, p2, d2) ==>
      p1 != p2 && Correlation(stat, p1, d1, p2, d2) == 0
  }

  /** There are several triples, and any two of them clash. */
  ghost predicate Doomed(ts: seq<Pattern>, stat: Stat) {
    |ts| >= 2 && forall i, j :: 0 <= i < |ts| && 0 <= j < |ts| && i != j ==> Clash(ts[i], ts[j], stat)
  }

  /** All constraints so far come from triple i, and no other one has been picked. */
  ghost predicate Lone(ts: seq<Pattern>, ms: Stacks, bits: seq<bool>, i: int) {
    0 <= i < |ts| && (forall j :: 0 <= j < |bits| && bits[j] ==> j == i) && Justified([ts[i]], ms)
  }

  ghost predicate LoneSomewhere(ts: seq<Pattern>, ms: Stacks, bits: seq<bool>) { exists i :: Lone(ts, ms, bits, i) }

  /** A query that must be found empty has been, once triples meet. */
  ghost predicate DoomOk(ts: seq<Pattern>, stat: Stat, ms: Stacks, bits: seq<bool>, empty: bool) {
    Doomed(ts, stat) ==> empty || LoneSomewhere(ts, ms, bits)
  }

  ghost predicate DoomFor(ts: seq<Pattern>, stat: Stat, ms: Stacks, bits: seq<bool>, empty: bool, k: nat) {
    Doomed(ts, stat) ==> empty || Lone(ts, ms, bits, k)
  }

  lemma DoomPick(ts: seq<Pattern>, stat: Stat, ms: Stacks, bits: seq<bool>, empty: bool, k: nat, selectivity: (Pattern, int) -> real)
    requires k < |ts| == |bits| && DoomFor(ts, stat, ms, bits, empty, k)
    ensures DoomOk(ts, stat, PushAll(ms, VarsOf(ts[k]), RecordsOf(ts[k], selectivity)), bits[k := true], empty)
  {
    hide Doomed, Justified, PushAll, VarsOf, RecordsOf;
    if Lone(ts, ms, bits, k) {
      OwnRecords(ts[k], ms, selectivity);
      assert Lone(ts, PushAll(ms, VarsOf(ts[k]), RecordsOf(ts[k], selectivity)), bits[k := true], k);
    }
  }

  lemma OwnRecords(t: Pattern, ms: Stacks, selectivity: (Pattern, int) -> real)
    requires Justified([t], ms)
    ensures Justified([t], PushAll(ms, VarsOf(t), RecordsOf(t, selectivity)))
  {
    hide Demands, Justified;
    PushAllJustified([t], ms, VarsOf(t), RecordsOf(t, selectivity), t);
  }

  lemma DoomIndex(ts: seq<Pattern>, stat: Stat, ms: Stacks, bits: seq<bool>, empty: bool, k: nat, q: Pattern, rec: Rec)
    requires k < |ts| && IsTriple(ts[k]) && Implied(q, ts[k]) && rec.p == q.subj && rec.d == (if q.dir == IN then OUT else IN)
    requires NoneSet(bits) && BoundOk(ms, FinalCols([], []))
    ensures DoomOk(ts, stat, Push(ms[q.obj := []], q.obj, rec), bits, empty)
  {
    hide Doomed;
    NoCols();
    assert Justified([ts[k]], ms) by { NoRecords(ms, ts[k]); }
    IndexStacks([ts[k]], ms, 0, q, rec);
    assert Lone(ts, Push(ms[q.obj := []], q.obj, rec), bits, k);
  }

  lemma NoRecords(ms: Stacks, t: Pattern)
    requires BoundOk(ms, [])
    ensures Justified([t], ms)
  {
  }

  lemma DoomStart(ts: seq<Pattern>, stat: Stat, ms: Stacks, bits: seq<bool>, empty: bool, k: nat)
    requires k < |ts| && NoneSet(bits) && BoundOk(ms, [])
    ensures DoomFor(ts, stat, ms, bits, empty, k) && DoomOk(ts, stat, ms, bits, empty)
  {
    hide Doomed;
    NoRecords(ms, ts[k]);
    assert Lone(ts, ms, bits, k);
  }

  /** When a triple is joined on a bound variable, the constraint looked at is its own, or emptiness
      is found. */
  lemma DoomJoin(ts: seq<Pattern>, stat: Stat, ms: Stacks, bits: seq<bool>, before: bool, after: bool, k: nat, v: int, p: int, d: Dir, pre: Rec)
    requires k < |ts| && DoomOk(ts, stat, ms, bits, before) && Demands(ts[k], v, p, d) && pre in StackOf(ms, v)
    requires after <==> before || (pre.p != p && Correlation(stat, pre.p, pre.d, p, d) == 0)
    ensures DoomFor(ts, stat, ms, bits, after, k)
  {
    hide Demands, Correlation, StackOf;
    if Doomed(ts, stat) && !before {
      var i :| Lone(ts, ms, bits, i);
      var j :| 0 <= j < |StackOf(ms, v)| && StackOf(ms, v)[j] == pre;
      assert Reason([ts[i]], v, pre);
      assert Demands(ts[i], v, pre.p, pre.d);
      if i != k { assert Clash(ts[i], ts[k], stat); }
    }
  }

  lemma DoomSame(ts: seq<Pattern>, stat: Stat, a: Stacks, b: Stacks, bits: seq<bool>, before: bool, after: bool)
    requires DoomOk(ts, stat, a, bits, before) && SameStacks(b, a) && (before ==> after)
    ensures DoomOk(ts, stat, b, bits, after)
  {
    hide Doomed, StackOf;
    if i :| Lone(ts, a, bits, i) { assert Lone(ts, b, bits, i); }
  }

  lemma DoomEnd(ts: seq<Pattern>, stat: Stat, ms: Stacks, bits: seq<bool>, empty: bool)
    requires |bits| == |ts| && AllSet(bits) && DoomOk(ts, stat, ms, bits, empty)
    ensures Doomed(ts, stat) ==> empty
  {
    hide Clash, Justified;
    if Doomed(ts, stat) { assert bits[0] && bits[1]; }
  }

  lemma DoomSwap(ts: seq<Pattern>, stat: Stat, i: nat)
    requires i < |ts| && Doomed(ts, stat)
    ensures Doomed(Swap(ts, i), stat)
  {
    hide Clash;
    var s := Swap(ts, i);
    forall a, b | 0 <= a < |s| && 0 <= b < |s| && a != b
      ensures Clash(s[a], s[b], stat)
    {
      SwapTwice(ts, i);
      SwapAt(s, i, a);
      SwapAt(s, i, b);
      assert ts[Moved(a, i)] == s[a] && ts[Moved(b, i)] == s[b];
    }
  }

  datatype Tried = Pruned | Stopped | Explored

  /** A plan once found is not lost. */
  predicate Kept(a: Option<real>, b: Option<real>) { a.Some? ==> b.Some? }

  lemma SameRefl(a: Stacks)
    ensures SameStacks(a, a)
  {
  }

  lemma SameTrans(a: Stacks, b: Stacks, c: Stacks)
    requires SameStacks(a, b) && SameStacks(b, c)
    ensures SameStacks(a, c)
  {
    forall v
      ensures StackOf(a, v) == StackOf(c, v)
    {
      assert StackOf(a, v) == StackOf(b, v) && StackOf(b, v) == StackOf(c, v);
    }
  }

  lemma SamePathOk(ts: seq<Pattern>, a: Stacks, b: Stacks, cols: seq<int>)
    requires SameStacks(b, a) && BoundOk(a, cols) && Justified(ts, a)
    ensures BoundOk(b, cols) && Justified(ts, b)
  {
    forall v
      ensures StackOf(a, v) == StackOf(b, v)
    {
      assert StackOf(b, v) == StackOf(a, v);
    }
    SameJustified(ts, a, b);
  }

  lemma FullPath(ts: seq<Pattern>, bits: seq<bool>, path: seq<Pattern>)
    requires |bits| == |ts| > 0 && Covers(ts, bits, path) && Ordered([], path) && AllSet(bits)
    ensures path != [] && IsPathFor(ts, path)
  {
    assert path == [] ==> NoneSet(bits);
    assert bits[0];
  }

  lemma NoCols()
    ensures FinalCols([], []) == []
  {
  }

  /** The columns are variables. */
  lemma {:induction false} BoundNegative(path: seq<Pattern>, v: int)
    requires Ordered([], path) && v in FinalCols([], path)
    ensures v < 0
    decreases |path|
  {
    if path != [] {
      LastStep(path);
      if v in FinalCols([], Front(path)) { BoundNegative(Front(path), v); }
    } else {
      NoCols();
    }
  }

  /** Starting from an index binds one variable, for a reason. */
  lemma IndexStacks(ts: seq<Pattern>, ms: Stacks, k: nat, q: Pattern, rec: Rec)
    requires k < |ts| && IsTriple(ts[k]) && Implied(q, ts[k]) && rec.p == q.subj && rec.d == (if q.dir == IN then OUT else IN)
    requires BoundOk(ms, FinalCols([], [])) && Justified(ts, ms)
    ensures BoundOk(Push(ms[q.obj := []], q.obj, rec), [q.obj])
    ensures Justified(ts, Push(ms[q.obj := []], q.obj, rec))
  {
    NoCols();
    var ms1 := ms[q.obj := []];
    assert forall v :: StackOf(ms, v) == [] && StackOf(ms1, v) == [];
    forall v
      ensures StackOf(Push(ms1, q.obj, rec), v) != [] <==> v == q.obj
    {
      StackAfterPush(ms1, q.obj, rec, v);
    }
    assert Justified(ts, ms1);
    assert Reason(ts, q.obj, rec);
    PushJustified(ts, ms1, q.obj, rec);
  }

  lemma UndoIndex(pushed: Stacks, ms: Stacks, v: int, rec: Rec)
    requires SameStacks(pushed, Push(ms[v := []], v, rec)) && BoundOk(ms, FinalCols([], []))
    ensures SameStacks(Pop(pushed, v), ms)
  {
    NoCols();
    PopSame(pushed, Push(ms[v := []], v, rec), v);
    PopsPush(ms[v := []], v, rec);
    SameTrans(Pop(pushed, v), Pop(Push(ms[v := []], v, rec), v), ms[v := []]);
    assert forall x :: StackOf(ms, x) == [] && StackOf(ms[v := []], x) == [];
    SameTrans(Pop(pushed, v), ms[v := []], ms);
  }

  /** Undoing a pick. */
  lemma UndoPick(pushed: Stacks, ms: Stacks, t: Pattern, selectivity: (Pattern, int) -> real)
    requires SameStacks(pushed, PushAll(ms, VarsOf(t), RecordsOf(t, selectivity)))
    ensures SameStacks(PopVars(pushed, VarsOf(t)), ms)
  {
    var vs, rs := VarsOf(t), RecordsOf(t, selectivity);
    PopVarsSame(pushed, PushAll(ms, vs, rs), vs);
    PopVarsPushAll(ms, vs, rs);
    SameTrans(PopVars(pushed, vs), PopVars(PushAll(ms, vs, rs), vs), ms);
  }

  /** Picking a triple: the stacks follow the columns. */
  lemma PickStacks(ts: seq<Pattern>, ms: Stacks, cols: seq<int>, t: Pattern, q: Pattern, selectivity: (Pattern, int) -> real)
    requires IsTriple(t) && t in ts && Realizes(q, t) && Joins(cols, q) && BoundOk(ms, cols) && Justified(ts, ms)
    ensures BoundOk(PushAll(ms, VarsOf(t), RecordsOf(t, selectivity)), ColsAfter(cols, q))
    ensures Justified(ts, PushAll(ms, VarsOf(t), RecordsOf(t, selectivity)))
  {
    hide Demands, Justified;
    var vs, rs := VarsOf(t), RecordsOf(t, selectivity);
    PushAllJustified(ts, ms, vs, rs, t);
    forall v
      ensures v in ColsAfter(cols, q) <==> StackOf(PushAll(ms, vs, rs), v) != []
    {
      PushAllBinds(ms, vs, rs, v);
      assert v in cols <==> StackOf(ms, v) != [];
    }
  }

  class Search {
    const triples: seq<Pattern>
    const stat: Stat
    const counted: int -> bool
    const addCost: (seq<Pattern>, Pattern) -> real
    const selectivity: (Pattern, int) -> real
    const record: array<int>

    var path: seq<Pattern>
    var minCost: Option<real>
    var minPath: seq<Pattern>
    var isEmpty: bool
    var minSelect: Stacks
    var overflow: bool   // a push went beyond its stack's array

    ghost var adds: seq<seq<int>>

    constructor (triples: seq<Pattern>, stat: Stat, counted: int -> bool, addCost: (seq<Pattern>, Pattern) -> real,
                 selectivity: (Pattern, int) -> real)
      ensures this.triples == triples && this.stat == stat && this.counted == counted && this.addCost == addCost
      ensures path == [] && minCost == None && minPath == [] && !isEmpty && minSelect == map[] && adds == [] && !overflow
      ensures RecordOk() && fresh(record)
    {
      this.triples, this.stat, this.counted, this.addCost, this.selectivity := triples, stat, counted, addCost, selectivity;
      path, minCost, minPath, isEmpty, minSelect, overflow := [], None, [], false, map[], false;
      record := new int[1 + 6 * |triples|];
      adds := [];
      new;
      record[0] := 0;
    }

    ghost predicate RecordOk()
      reads this, record
    {
      && record.Length == 1 + 6 * |triples|
      && (forall i :: 0 <= i < |adds| ==> |adds[i]| <= 2)
      && record[0] == |Enc(adds)| < record.Length
      && record[1..1 + record[0]] == Enc(adds)
    }

    /** The path is a partial plan for the triples whose bits are set, and the stacks go with it. */
    ghost predicate PathOk(bits: seq<bool>)
      reads this, record
    {
      && |bits| == |triples| > 0 && IsQuery(triples)
      && Covers(triples, bits, path) && Ordered([], path)
      && BoundOk(minSelect, FinalCols([], path)) && Justified(triples, minSelect)
      && RecordOk() && |adds| == CountSet(bits)
      && Heights(triples, bits, path, minSelect)
    }

    /** The best path, if there is one, is a plan, and emptiness is only claimed with a reason. */
    ghost predicate ResultOk()
      reads this
    {
      && (minPath != [] <==> minCost.Some?) && (minCost.Some? ==> AllCounted(triples, counted) && PathCost(C(), minPath) == minCost)
      && (minPath != [] ==> IsPathFor(triples, minPath))
      && (isEmpty ==> EmptyReason(triples, stat)) && (Doomed(triples, stat) && minCost.Some? ==> isEmpty)
    }

    /** A query that must be found empty has been, or its triples have not met yet. */
    ghost predicate Doom(bits: seq<bool>)
      reads this
    {
      DoomOk(triples, stat, minSelect, bits, isEmpty)
    }

    ghost function C(): Costs { Costs(counted, addCost) }

    /** The search stops only at the first complete path, and exactly if that is small. */
    ghost predicate First(was: Option<real>, bits: seq<bool>, path0: seq<Pattern>, ctn: bool)
      requires |bits| == |triples|
      reads this
    {
      && (was == None && Plannable() ==> FirstSays(C(), triples, bits, path0, ctn, minPath))
      && (!ctn ==> was == None && Plannable())
    }

    /** The same for going on with triple k. */
    ghost predicate FirstTriple(was: Option<real>, bits: seq<bool>, path0: seq<Pattern>, k: nat, ctn: bool)
      requires |bits| == |triples| && k < |triples|
      reads this
    {
      var qs := Choices(triples[k], path0);
      && (qs == [] ==> ctn && minCost == was)
      && (qs != [] ==> First(was, NextBits(bits, k, qs[0]), path0 + [qs[0]], ctn))
    }

    ghost predicate Plannable()
    {
      Connected(triples) && AllCounted(triples, counted)
    }

    /** Try a pattern for triple k next. */
    method TryPick(k: nat, q: Pattern, bits: seq<bool>, cost: Option<real>) returns (r: Tried)
      requires PathOk(bits) && ResultOk() && k < |triples| && !bits[k] && CostOk(triples, counted, bits, cost)
      requires Realizes(q, triples[k]) && Joins(FinalCols([], path), q) && cost == PathCost(C(), path)
      requires DoomFor(triples, stat, minSelect, bits, isEmpty, k)
      modifies this, record
      ensures old(isEmpty) ==> isEmpty
      ensures ResultOk() && RecordOk() && adds == old(adds) && SameStacks(minSelect, old(minSelect))
      ensures r != Stopped ==> path == old(path) && PathOk(bits)
      ensures Kept(old(minCost), minCost) && First(old(minCost), bits[k := true], old(path) + [q], r != Stopped) && AtMost(minCost, old(minCost))
      ensures Plannable() ==> minCost.Some?
      ensures FlowOk(triples, old(overflow), overflow, Dives(triples, old(minCost), old(path)) && old(path) != [])
      ensures r != Stopped ==> Tackled(C(), triples, minCost, bits, old(path), k, q)
      ensures r == Pruned ==> Above(PathCost(C(), old(path) + [q]), minCost)
      decreases |triples| - CountSet(bits), if path == [] then 1 else 0, 1
    {
      hide Covers, Ordered, Connected, Justified, EmptyReason, AllCounted, CostOk, IsPathFor, BoundOk, SameStacks, FinalCols, Enc, Heights;
      hide PushAll, PopVars, CountSet, Joins, IsTriple, Realizes, RecordsOf, VarsOf, TooHigh, AllLoops, PathCost, BestFrom, StepCost, DoomFor, Doomed;
      var add := if Counted(triples[k], counted) then Some(addCost(path, q)) else None;
      var newCost := Plus(cost, add);
      CostMark(triples, counted, bits, k, cost, add);
      PickCost(C(), triples, k, path, q, bits);
      SameRefl(minSelect);
      if Above(newCost, minCost) { return Pruned; }
      var ctn := Dive(k, q, bits, newCost);
      r := if ctn then Explored else Stopped;
    }

    /** Go on with one more pattern, and come back. */
    method Dive(k: nat, q: Pattern, bits: seq<bool>, newCost: Option<real>) returns (ctn: bool)
      requires PathOk(bits) && ResultOk() && k < |triples| && !bits[k] && CostOk(triples, counted, bits[k := true], newCost)
      requires Realizes(q, triples[k]) && Joins(FinalCols([], path), q) && newCost == PathCost(C(), path + [q])
      requires DoomFor(triples, stat, minSelect, bits, isEmpty, k)
      modifies this, record
      ensures old(isEmpty) ==> isEmpty
      ensures ResultOk() && RecordOk() && adds == old(adds) && SameStacks(minSelect, old(minSelect))
      ensures ctn ==> path == old(path) && PathOk(bits)
      ensures Kept(old(minCost), minCost) && First(old(minCost), bits[k := true], old(path) + [q], ctn) && AtMost(minCost, old(minCost))
      ensures Plannable() ==> minCost.Some?
      ensures FlowOk(triples, old(overflow), overflow, Dives(triples, old(minCost), old(path)) && old(path) != [])
      ensures ctn ==> BestFrom(C(), triples, minCost, bits[k := true], old(path) + [q])
      decreases |triples| - CountSet(bits), if path == [] then 1 else 0, 0
    {
      hide Covers, Ordered, Connected, Justified, EmptyReason, AllCounted, CostOk, IsPathFor, BoundOk, SameStacks, FinalCols, Enc, Heights;
      hide PushAll, PopVars, CountSet, Joins, IsTriple, Realizes, RecordsOf, VarsOf, TooHigh, AllLoops, PathCost, BestFrom, DoomFor, DoomOk, Doomed;
      ghost var before, stacks := path, minSelect;
      CountMark(bits, k);
      DoomPick(triples, stat, minSelect, bits, isEmpty, k, selectivity);
      PushPick(k, q, bits);
      ctn := ComTraverse(bits[k := true], newCost);
      UndoPick(minSelect, stacks, triples[k], selectivity);
      UnaddSelectivity();
      if ctn {
        path := Front(path);
        assert path == before;
        SamePathOk(triples, stacks, minSelect, FinalCols([], path));
        SameHeights(triples, bits, path, stacks, minSelect);
      }
    }

    /** The path with one more pattern, and the constraints of its triple on the stacks. */
    method PushPick(k: nat, q: Pattern, bits: seq<bool>)
      requires PathOk(bits) && k < |triples| && !bits[k] && Realizes(q, triples[k]) && Joins(FinalCols([], path), q)
      modifies this`path, this`minSelect, this`adds, this`overflow, record
      ensures PathOk(bits[k := true]) && path == old(path) + [q] && adds == old(adds) + [VarsOf(triples[k])]
      ensures minSelect == PushAll(old(minSelect), VarsOf(triples[k]), RecordsOf(triples[k], selectivity))
      ensures FlowOk(triples, old(overflow), overflow, AllLoops(triples) && AllSet(bits[k := true]) && FromIndex(path, triples[0].subj))
    {
      hide Covers, Ordered, Justified, BoundOk, FinalCols, Enc, Heights;
      hide PushAll, CountSet, Joins, IsTriple, Realizes, RecordsOf, VarsOf, TooHigh, AllLoops;
      ghost var before, stacks := path, minSelect;
      var t := triples[k];
      path := path + [q];
      CountMark(bits, k);
      ExtendPath(triples, bits, before, k, q);
      NewAddSelectivity(t);
      PickStacks(triples, stacks, FinalCols([], before), t, q, selectivity);
      PickHeights(triples, bits, before, stacks, k, q, RecordsOf(t, selectivity));
      PickFlow(triples, bits[k := true], path, minSelect, t);
    }

    /** Start the path from a predicate index, at the subjects or the objects of triple k. */
    method TryIndex(k: nat, q: Pattern, d: Dir, bits: seq<bool>, cost: Option<real>) returns (r: Tried)
      requires PathOk(bits) && ResultOk() && path == [] && k < |triples| && CostOk(triples, counted, bits, cost)
      requires Implied(q, triples[k]) && d == (if q.dir == IN then OUT else IN) && cost == PathCost(C(), path)
      modifies this, record
      ensures old(isEmpty) ==> isEmpty
      ensures ResultOk() && RecordOk() && adds == old(adds) && SameStacks(minSelect, old(minSelect))
      ensures r != Stopped ==> path == [] && PathOk(bits)
      ensures Kept(old(minCost), minCost) && First(old(minCost), bits, old(path) + [q], r != Stopped) && AtMost(minCost, old(minCost))
      ensures Plannable() ==> minCost.Some?
      ensures FlowOk(triples, old(overflow), overflow, Dives(triples, old(minCost), old(path)))
      ensures r != Stopped ==> Tackled(C(), triples, minCost, bits, old(path), k, q)
      ensures r == Pruned ==> Above(PathCost(C(), old(path) + [q]), minCost)
      decreases |triples| - CountSet(bits), 1, 0
    {
      hide Ordered, Connected, Justified, EmptyReason, AllCounted, CostOk, IsPathFor, BoundOk, SameStacks, FinalCols, Enc, Heights;
      hide CountSet, IsTriple, AllLoops, StackOf, Push, Covers, Implied, PathCost, BestFrom, StepCost, DoomOk, Doomed;
      CoversNone(triples, bits, path);
      assert !bits[0];
      IndexCost(C(), triples[k], path, q, bits, k);
      var newCost := Plus(cost, Some(addCost(path, q)));
      CostSame(triples, counted, bits, cost, newCost);
      ghost var stacks := minSelect;
      SameRefl(minSelect);
      if Above(newCost, minCost) { return Pruned; }
      assert path + [q] == [q];
      ghost var rec := PushIndex(k, q, d, bits);
      CountBound(bits);
      DoomIndex(triples, stat, stacks, bits, isEmpty, k, q, rec);
      var ctn := ComTraverse(bits, newCost);
      UndoIndex(minSelect, stacks, q.obj, rec);
      minSelect := Pop(minSelect, q.obj);
      if !ctn { return Stopped; }
      path := Front(path);
      assert path == [];
      SamePathOk(triples, stacks, minSelect, FinalCols([], path));
      SameHeights(triples, bits, path, stacks, minSelect);
      return Explored;
    }

    /** A path of one index pattern, with its record on a new stack. */
    method PushIndex(k: nat, q: Pattern, d: Dir, bits: seq<bool>) returns (ghost rec: Rec)
      requires PathOk(bits) && path == [] && k < |triples| && NoneSet(bits)
      requires Implied(q, triples[k]) && d == if q.dir == IN then OUT else IN
      modifies this`path, this`minSelect, this`overflow
      ensures PathOk(bits) && path == [q]
      ensures minSelect == Push(old(minSelect)[q.obj := []], q.obj, rec)
      ensures rec.p == q.subj && rec.d == d
      ensures (overflow <==> old(overflow)) && (AllLoops(triples) ==> FromIndex(path, triples[0].subj))
    {
      hide Ordered, Justified, BoundOk, FinalCols, Enc, Heights, CountSet, IsTriple, AllLoops, StackOf, Push, Covers;
      ghost var stacks := minSelect;
      IndexPath(triples, bits, k, q);
      var r := MS.SelectRecord(q.subj, d, selectivity(triples[k], q.obj));
      rec := r;
      IndexStacks(triples, stacks, k, q, r);
      NoCols();
      IndexHeights(triples, bits, stacks, q, r);
      IndexFlow(triples, bits, stacks, k, q, r);
      path := path + [q];
      assert path == [q];
      minSelect := minSelect[q.obj := []];
      minSelect := Push(minSelect, q.obj, r);
      NoteHeight(q.obj);
    }

    /** The correlation of a new constraint with the most selective one on the same variable: the
        count is the one kept for the two, and a zero count makes the query empty. */
    method ComPrune(k: nat, v: int, p: int, d: Dir, ghost bits: seq<bool>) returns (x: nat)
      requires ResultOk() && Justified(triples, minSelect) && StackOf(minSelect, v) != []
      requires k < |triples| && Demands(triples[k], v, p, d)
      modifies this`isEmpty
      ensures ResultOk() && (old(Doom(bits)) ==> DoomFor(triples, stat, minSelect, bits, isEmpty, k))
      ensures old(isEmpty) ==> isEmpty
      ensures var pre := Last(MS.Minima(StackOf(minSelect, v)));
        && (pre.p != p ==> x == Correlation(stat, pre.p, pre.d, p, d))
        && (isEmpty <==> old(isEmpty) || (pre.p != p && Correlation(stat, pre.p, pre.d, p, d) == 0))
    {
      hide DoomFor, DoomOk, Doomed;
      var pre := Last(MS.Minima(StackOf(minSelect, v)));
      MS.LastMinimum(StackOf(minSelect, v));
      assert Reason(triples, v, pre);
      x := 0;
      ghost var before := isEmpty;
      if pre.p == p {
        if Doom(bits) { DoomJoin(triples, stat, minSelect, bits, before, isEmpty, k, v, p, d, pre); }
        return;
      }
      if pre.d == OUT && d == OUT {
        if pre.p < p { x := Pair(stat, pre.p, p).outOut; } else { x := Pair(stat, p, pre.p).outOut; }
      }
      if pre.d == IN && d == OUT {
        if pre.p < p { x := Pair(stat, pre.p, p).inOut; } else { x := Pair(stat, p, pre.p).outIn; }
      }
      if pre.d == IN && d == IN {
        if pre.p < p { x := Pair(stat, pre.p, p).inIn; } else { x := Pair(stat, p, pre.p).inIn; }
      }
      if pre.d == OUT && d == IN {
        if pre.p < p { x := Pair(stat, pre.p, p).outIn; } else { x := Pair(stat, p, pre.p).inOut; }
      }
      assert x == Correlation(stat, pre.p, pre.d, p, d);
      if x == 0 {
        var i :| 0 <= i < |triples| && Demands(triples[i], v, pre.p, pre.d);
        assert Contradicts(triples, stat, i, k, v, pre.p, pre.d, p, d);
        isEmpty := true;
      }
      if old(Doom(bits)) { DoomJoin(triples, stat, minSelect, bits, before, isEmpty, k, v, p, d, pre); }
    }

    /** Everything that can be done next with triple k. */
    method TryTriple(k: nat, bits: seq<bool>, cost: Option<real>) returns (r: Tried)
      requires PathOk(bits) && ResultOk() && k < |triples| && !bits[k] && CostOk(triples, counted, bits, cost)
      requires cost == PathCost(C(), path) && Doom(bits)
      modifies this, record
      ensures old(isEmpty) ==> isEmpty
      ensures ResultOk() && RecordOk() && adds == old(adds) && SameStacks(minSelect, old(minSelect))
      ensures r != Stopped ==> path == old(path) && PathOk(bits)
      ensures Kept(old(minCost), minCost) && FirstTriple(old(minCost), bits, old(path), k, r != Stopped) && AtMost(minCost, old(minCost))
      ensures Plannable() && (old(path) == [] || Extends(triples, bits, FinalCols([], old(path)), k)) ==> minCost.Some?
      ensures FlowOk(triples, old(overflow), overflow, Dives(triples, old(minCost), old(path)))
      ensures r != Stopped ==> BestVia(C(), triples, minCost, bits, old(path), k)
      decreases |triples| - CountSet(bits), if path == [] then 1 else 0, 3
    {
      hide Covers, Ordered, Connected, Justified, EmptyReason, AllCounted, CostOk, IsPathFor, Enc, SameStacks, CountSet, Heights, FinalCols, AllLoops;
      hide PathCost, BestVia, Tackled, Choices, DoomOk, DoomFor, Doomed, FirstOf, NotSmall, SmallPath;
      var t := triples[k];
      LoopTriple(triples, k);
      ghost var stacks := minSelect;
      SameRefl(minSelect);
      if path == [] {
        NoCols();
        StartChoices(t, bits, k);
        CoversNone(triples, bits, path);
        DoomStart(triples, stat, minSelect, bits, isEmpty, k);
        if t.subj < 0 && t.obj < 0 {
          r := TryIndex(k, FromSubjects(t), OUT, bits, cost);
          if r == Pruned { StartBest(C(), triples, minCost, bits, k); }
          if r != Explored { return; }
          ghost var between, best := minSelect, minCost;
          r := TryIndex(k, FromObjects(t), IN, bits, cost);
          SameTrans(minSelect, between, stacks);
          assert r != Stopped;  // only the first complete path stops the search
          TackledLower(C(), triples, minCost, best, bits, path, k, FromSubjects(t));
        } else if t.subj > 0 {
          r := TryPick(k, t, bits, cost);
        } else {
          r := TryPick(k, Backwards(t), bits, cost);
        }
        if r != Stopped { StartBest(C(), triples, minCost, bits, k); }
      } else {
        r := TryEnds(k, bits, cost);
      }
    }

    /** A triple on a path that has begun: from its subject, then from its object, as far as they
        are bound. */
    method TryEnds(k: nat, bits: seq<bool>, cost: Option<real>) returns (r: Tried)
      requires PathOk(bits) && ResultOk() && k < |triples| && !bits[k] && CostOk(triples, counted, bits, cost)
      requires cost == PathCost(C(), path) && path != [] && Doom(bits)
      modifies this, record
      ensures old(isEmpty) ==> isEmpty
      ensures ResultOk() && RecordOk() && adds == old(adds) && SameStacks(minSelect, old(minSelect))
      ensures r != Stopped ==> path == old(path) && PathOk(bits)
      ensures Kept(old(minCost), minCost) && FirstTriple(old(minCost), bits, old(path), k, r != Stopped) && AtMost(minCost, old(minCost))
      ensures Plannable() && Extends(triples, bits, FinalCols([], old(path)), k) ==> minCost.Some?
      ensures FlowOk(triples, old(overflow), overflow, Dives(triples, old(minCost), old(path)))
      ensures r != Stopped ==> BestVia(C(), triples, minCost, bits, old(path), k)
      decreases |triples| - CountSet(bits), 0, 2
    {
      hide Covers, Ordered, Connected, Justified, EmptyReason, AllCounted, CostOk, IsPathFor, Enc, SameStacks, CountSet, Heights, FinalCols, MS.Minima, Correlation, AllLoops;
      hide PathCost, BestVia, Tackled, Choices, DoomOk, DoomFor, Doomed, FirstOf, NotSmall, SmallPath;
      var t := triples[k];
      LoopTriple(triples, k);
      ghost var stacks := minSelect;
      SameRefl(minSelect);
      ColsNonEmpty(path);
      LoopIsBound(triples, path, k);
      EndChoices(t, path, bits, k);
      r := Explored;
      if StackOf(minSelect, t.subj) != [] {
        BoundNegative(path, t.subj);
        var _ := ComPrune(k, t.subj, if t.pred == TYPE_ID then t.obj else t.pred, OUT, bits);
        r := TryPick(k, t, bits, cost);
        if r == Pruned { EndsBest(C(), triples, minCost, bits, path, k); }
        if r != Explored { return; }
      }
      ghost var between, best := minSelect, minCost;
      DoomSame(triples, stat, stacks, minSelect, bits, old(isEmpty), isEmpty);
      if StackOf(minSelect, t.obj) != [] {
        BoundNegative(path, t.obj);
        var _ := ComPrune(k, t.obj, t.pred, IN, bits);
        r := TryPick(k, Backwards(t), bits, cost);
        SameTrans(minSelect, between, stacks);
        if r == Stopped { return; }
        if t.subj in FinalCols([], path) { TackledLower(C(), triples, minCost, best, bits, path, k, t); }
      }
      EndsBest(C(), triples, minCost, bits, path, k);
    }

    /** A complete path: keep it if it is the cheapest so far; stop the search if it is the first
        one, cheap, and starts from a normal vertex. */
    method FullPlan(cost: Option<real>) returns (ctn: bool)
      requires ResultOk() && path != [] && IsPathFor(triples, path) && (cost.Some? <==> AllCounted(triples, counted))
      requires cost == PathCost(C(), path) && (Doomed(triples, stat) ==> isEmpty)
      modifies this`minCost, this`minPath
      ensures ResultOk() && Kept(old(minCost), minCost) && AtMost(minCost, old(minCost)) && AtMost(minCost, cost)
      ensures AllCounted(triples, counted) ==> minCost.Some?
      ensures !ctn <==> old(minCost) == None && SmallPath(C(), path)
      ensures !ctn ==> minPath == path
    {
      ctn := true;
      if minCost == None && cost.Some? && cost.value < COST_THRESHOLD && path[0].subj >= NORMAL_ID { ctn := false; }
      if cost.Some? && (minCost == None || cost.value < minCost.value) {
        minCost := cost;
        minPath := path;
      }
    }

    /** All triples have been picked. */
    method Complete(bits: seq<bool>, cost: Option<real>) returns (ctn: bool)
      requires PathOk(bits) && ResultOk() && CostOk(triples, counted, bits, cost) && cost == PathCost(C(), path)
      requires Doom(bits) && AllSet(bits)
      modifies this`minCost, this`minPath
      ensures ResultOk() && Kept(old(minCost), minCost) && First(old(minCost), bits, path, ctn) && AtMost(minCost, old(minCost))
      ensures BestFrom(C(), triples, minCost, bits, path)
      ensures Plannable() ==> minCost.Some?
    {
      hide Covers, Ordered, Connected, Justified, EmptyReason, AllCounted, CostOk, Enc, CountSet, BoundOk, IsPathFor, Heights, AllLoops;
      hide PathCost, BestFrom, DoomOk, Doomed, FirstOf, NotSmall, SmallPath;
      FullPath(triples, bits, path);
      FullCost(triples, counted, bits, cost);
      DoomEnd(triples, stat, minSelect, bits, isEmpty);
      ctn := FullPlan(cost);
      BestAtEnd(C(), triples, minCost, bits, path);
      PlanConnected(triples, path);
      SmallIsNumber(C(), path);
      FirstAtEnd(C(), triples, bits, path, !SmallPath(C(), path));
    }

    method ComTraverse(bits: seq<bool>, cost: Option<real>) returns (ctn: bool)
      requires PathOk(bits) && ResultOk() && CostOk(triples, counted, bits, cost) && cost == PathCost(C(), path)
      requires Doom(bits)
      modifies this, record
      ensures old(isEmpty) ==> isEmpty
      ensures ResultOk() && RecordOk() && adds == old(adds) && SameStacks(minSelect, old(minSelect))
      ensures ctn ==> path == old(path) && PathOk(bits)
      ensures Kept(old(minCost), minCost) && First(old(minCost), bits, old(path), ctn) && AtMost(minCost, old(minCost))
      ensures ctn ==> BestFrom(C(), triples, minCost, bits, old(path))
      ensures Plannable() ==> minCost.Some?
      ensures FlowOk(triples, old(overflow), overflow, Dives(triples, old(minCost), old(path)) && !AllSet(bits))
      decreases |triples| - CountSet(bits), if path == [] then 1 else 0, 4
    {
      hide Covers, Ordered, Connected, Justified, EmptyReason, AllCounted, CostOk, Enc, SameStacks, CountSet, BoundOk, IsPathFor, Heights, AllLoops;
      hide PathCost, BestVia, BestFrom, DoomOk, Doomed, Choices, FirstOf, SmallPath, NoneBelow, NotSmall;
      SameRefl(minSelect);
      if AllSet(bits) {
        ctn := Complete(bits, cost);
        return ctn;
      }
      if path == [] { CoversNone(triples, bits, path); }
      ghost var path0 := path;
      NoneBelowNext(triples, bits, path, 0);
      for k := 0 to |triples|
        invariant PathOk(bits) && ResultOk() && path == old(path) && adds == old(adds)
        invariant SameStacks(minSelect, old(minSelect)) && Kept(old(minCost), minCost) && AtMost(minCost, old(minCost))
        invariant (old(isEmpty) ==> isEmpty) && Doom(bits)
        invariant forall j :: 0 <= j < k && !bits[j] ==> BestVia(C(), triples, minCost, bits, path, j)
        invariant Plannable() && minCost == None ==> if path == [] then k == 0 else
          forall i :: 0 <= i < k ==> !Extends(triples, bits, FinalCols([], path), i)
        invariant FlowOk(triples, old(overflow), overflow, false)
        invariant old(minCost) == None && Plannable() ==>
          (minCost == None && NoneBelow(triples, bits, path, k)) || (minCost.Some? && NotSmall(C(), triples, bits, path))
        invariant Dives(triples, old(minCost), path) ==> overflow || (minCost == None && forall i :: 0 <= i < k ==> bits[i])
      {
        if bits[k] {
          NoneBelowNext(triples, bits, path, k);
          continue;
        }
        ghost var before, best, empty := minSelect, minCost, isEmpty;
        var r := TryTriple(k, bits, cost);
        DoomSame(triples, stat, before, minSelect, bits, empty, isEmpty);
        SameTrans(minSelect, before, old(minSelect));
        ChoicesExtend(triples, bits, path0, k);
        NoneBelowNext(triples, bits, path0, k);
        if old(minCost) == None && Plannable() && best == None && Choices(triples[k], path0) != [] {
          FirstStep(C(), triples, bits, path0, k, r != Stopped, minPath);
        }
        if r == Stopped { return false; }
        forall j | 0 <= j < k && !bits[j]
          ensures BestVia(C(), triples, minCost, bits, path, j)
        {
          BestViaLower(C(), triples, minCost, best, bits, path, j);
        }
      }
      BestOverTriples(C(), triples, minCost, bits, path);
      if NoneBelow(triples, bits, path, |triples|) { NoFirst(C(), triples, bits, path); }
      if Plannable() && path != [] {
        var k := ConnectedExtends(triples, bits, path);
      }
      return true;
    }

    /** Push the constraints of a triple and note the variables. */
    method NewAddSelectivity(t: Pattern)
      requires RecordOk() && |adds| < |triples| && IsTriple(t)
      modifies this`minSelect, this`adds, this`overflow, record
      ensures RecordOk() && adds == old(adds) + [VarsOf(t)]
      ensures minSelect == PushAll(old(minSelect), VarsOf(t), RecordsOf(t, selectivity))
      ensures overflow <==> old(overflow) || TooHigh(minSelect, t, 2 * |triples|)
    {
      hide Enc;
      PushAllShort(minSelect, t, selectivity);
      var p := t.pred;
      if t.subj < 0 && t.obj > 0 {
        if p == TYPE_ID { p := t.obj; }
        minSelect := Push(minSelect, t.subj, MS.SelectRecord(p, OUT, selectivity(t, t.subj)));
        NoteHeight(t.subj);
        NoteOne(t.subj);
      } else if t.obj < 0 && t.subj > 0 {
        minSelect := Push(minSelect, t.obj, MS.SelectRecord(p, IN, selectivity(t, t.obj)));
        NoteHeight(t.obj);
        NoteOne(t.obj);
      } else {
        minSelect := Push(minSelect, t.subj, MS.SelectRecord(p, OUT, selectivity(t, t.subj)));
        NoteHeight(t.subj);
        ghost var between := minSelect;
        var o := MS.SelectRecord(p, IN, selectivity(t, t.obj));
        StackAfterPush(between, t.obj, o, t.subj);
        minSelect := Push(minSelect, t.obj, o);
        NoteHeight(t.obj);
        NoteTwo(t.subj, t.obj);
      }
    }

    /** Each stack has an array of twice as many elements as there are triples. */
    method NoteHeight(v: int)
      modifies this`overflow
      ensures overflow <==> old(overflow) || |StackOf(minSelect, v)| > 2 * |triples|
    {
      if |StackOf(minSelect, v)| > 2 * |triples| { overflow := true; }
    }

    method NoteOne(v: int)
      requires RecordOk() && |adds| < |triples|
      modifies this`adds, record
      ensures RecordOk() && adds == old(adds) + [[v]]
    {
      EncLength(adds);
      EncSnoc(adds, [v]);
      var k := record[0];
      ghost var before := record[1..1 + k];
      record[k + 1] := v;
      record[k + 2] := 1;
      record[0] := k + 2;
      adds := adds + [[v]];
      assert record[1..1 + record[0]] == before + [v] + [1];
    }

    method NoteTwo(v: int, w: int)
      requires RecordOk() && |adds| < |triples|
      modifies this`adds, record
      ensures RecordOk() && adds == old(adds) + [[v, w]]
    {
      EncLength(adds);
      EncSnoc(adds, [v, w]);
      var k := record[0];
      ghost var before := record[1..1 + k];
      record[k + 1] := v;
      record[k + 2] := w;
      record[k + 3] := 2;
      record[0] := k + 3;
      adds := adds + [[v, w]];
      assert record[1..1 + record[0]] == before + [v, w] + [2];
    }

    /** Undo the last addition. */
    method UnaddSelectivity()
      requires RecordOk() && adds != []
      modifies this`minSelect, this`adds, record
      ensures RecordOk() && adds == Front(old(adds))
      ensures minSelect == PopVars(old(minSelect), Last(old(adds)))
    {
      hide Enc;
      ghost var vs := Last(adds);
      var lastPos := record[0];
      EncTail(adds);
      var lastNum := record[lastPos];
      assert lastNum == record[1..1 + lastPos][lastPos - 1] == |vs|;
      assert record[lastPos - lastNum..lastPos] == record[1..1 + lastPos][lastPos - lastNum - 1..lastPos - 1] == vs;
      PopRecorded(lastPos, lastNum);
      Shorten(lastPos - (lastNum + 1));
    }

    /** Pop the stacks of the recorded variables, the last one first. */
    method PopRecorded(lastPos: nat, lastNum: nat)
      requires lastNum <= lastPos <= record.Length
      modifies this`minSelect
      ensures minSelect == PopVars(old(minSelect), record[lastPos - lastNum..lastPos])
    {
      ghost var vs := record[lastPos - lastNum..lastPos];
      assert vs[..lastNum] == vs;
      for i := 1 to lastNum + 1
        invariant PopVars(minSelect, vs[..lastNum + 1 - i]) == PopVars(old(minSelect), vs)
      {
        assert Front(vs[..lastNum + 1 - i]) == vs[..lastNum - i];
        minSelect := Pop(minSelect, record[lastPos - i]);
      }
    }

    method Shorten(k: nat)
      requires RecordOk() && adds != [] && k == |Enc(adds)| - |Last(adds)| - 1
      modifies this`adds, record
      ensures RecordOk() && adds == Front(old(adds))
    {
      EncTail(adds);
      ghost var before := record[1..1 + record[0]];
      record[0] := k;
      adds := Front(adds);
      assert record[1..1 + k] == before[..k];
    }
  }

  lemma EncTail(adds: seq<seq<int>>)
    requires adds != []
    ensures var e, n := Enc(adds), |Last(adds)|;
      |e| > n && e[|e| - 1] == n && e[..|e| - n - 1] == Enc(Front(adds))
      && e[|e| - n - 1..|e| - 1] == Last(adds)
  {
  }

  /** Plan a query.  The first triple with a normal vertex, if there is one, is tried first.
      The planner gives up with a reason, or returns a plan exactly if the query is connected and
      its predicates have been counted; otherwise it returns no patterns at all.  The planner does
      not look at what the engine takes for an index start: its plan can be run exactly unless it
      starts from a bad constant, which no plan does if there is none, and every one if all are. */
  method GenerateForPatterns(patterns: seq<Pattern>, stat: Stat, counted: int -> bool, addCost: (seq<Pattern>, Pattern) -> real,
                             selectivity: (Pattern, int) -> real) returns (ok: bool, plan: seq<Pattern>, overflow: bool)
    requires IsQuery(patterns) && patterns != []
    ensures !ok ==> EmptyReason(patterns, stat)
    ensures ok ==> (plan != [] <==> Connected(patterns) && AllCounted(patterns, counted))
    ensures ok && plan != [] ==> IsPathFor(patterns, plan) && (IsPlanFor(patterns, plan) <==> !StartFails(plan[0]))
    ensures ok && plan != [] && (forall k :: 0 <= k < |patterns| ==> !BadConstant(patterns[k])) ==> IsPlanFor(patterns, plan)
    ensures ok && plan != [] && (forall k :: 0 <= k < |patterns| ==> BadConstant(patterns[k])) ==> !IsPlanFor(patterns, plan)
    ensures ok && plan != [] ==> Cheapest(Costs(counted, addCost), patterns, plan)
    ensures Doomed(patterns, stat) && Connected(patterns) && AllCounted(patterns, counted) ==> !ok
    ensures overflow <==> AllLoops(patterns)
  {
    hide Doomed, FirstOf, NotSmall, SmallPath, EmptyReason, Connected, AllCounted, IsPathFor, Cheapest, AllLoops, BestFrom, PathCost, BadConstant, StartFails, Covers, Ordered;
    var chains := patterns;
    ghost var first := 0;
    for i := 0 to |patterns|
      invariant chains == patterns && first == 0 && forall j :: 0 <= j < i ==> !HasNormal(patterns[j])
    {
      if HasNormal(chains[i]) {
        if i == 0 { break; }
        first := i;
        var t := chains[i];
        chains := chains[i := chains[0]];
        chains := chains[0 := t];
        break;
      }
    }
    assert chains == Swap(patterns, first) && IsFront(patterns, first);
    assert IsQuery(chains);
    var search := new Search(chains, stat, counted, addCost, selectivity);
    var none := seq(|chains|, _ => false);
    StartOk(chains, none);
    StartHeights(chains, none);
    assert none == NoBits(|patterns|);
    NoCost(Costs(counted, addCost));
    NothingMet(chains, stat, none);
    if Doomed(patterns, stat) { DoomSwap(patterns, stat, first); }
    var ctn := search.ComTraverse(none, Some(0.0));
    overflow := search.overflow;
    LoopsSwap(patterns, first);
    CountedSwap(patterns, counted, first);
    assert !none[0];
    if search.isEmpty {
      EmptySwap(patterns, stat, first);
      return false, patterns, overflow;
    }
    plan := search.minPath;
    SwapTwice(patterns, first);
    if Connected(patterns) { ConnectedSwap(patterns, first); }
    if plan != [] {
      PlanSwap(patterns, plan, first);
      PlanConnected(patterns, plan);
      ConnectedSwap(patterns, first);
      SearchIsCheapest(Costs(counted, addCost), patterns, first, plan, ctn);
      PlanBinds(patterns, plan);
      var k := FirstTriple(patterns, plan);
    }
    return true, plan, overflow;
  }

  lemma NothingMet(ts: seq<Pattern>, stat: Stat, none: seq<bool>)
    requires ts != [] && NoneSet(none)
    ensures DoomOk(ts, stat, map[], none, false)
  {
    hide Doomed;
    DoomStart(ts, stat, map[], none, false, 0);
  }

  lemma NoCost(c: Costs)
    ensures PathCost(c, []) == Some(0.0)
  {
  }

  lemma SearchIsCheapest(c: Costs, ts: seq<Pattern>, first: nat, plan: seq<Pattern>, ctn: bool)
    requires IsFront(ts, first) && plan != [] && PathCost(c, plan).Some?
    requires FirstSays(c, Swap(ts, first), NoBits(|ts|), [], ctn, plan)
    requires ctn ==> BestFrom(c, Swap(ts, first), PathCost(c, plan), NoBits(|ts|), [])
    ensures Cheapest(c, ts, plan)
  {
    hide BestFrom, PathCost, FirstOf, SmallPath;
    if ctn { BestSwap(c, ts, first, PathCost(c, plan)); }
    assert Taken(c, ts, Swap(ts, first), plan);
  }

  /** For `5 7 ?x`, where 5 is a type or predicate, the planner returns a plan that fails when it
      is started. */
  method IndexConstantFails() returns (patterns: seq<Pattern>, plan: seq<Pattern>)
    ensures patterns == [Pattern(5, 7, OUT, -1)] && IsQuery(patterns)
    ensures plan != [] && IsPathFor(patterns, plan) && StartFails(plan[0])
    ensures !exists path :: IsPlanFor(patterns, path)
  {
    patterns := [Pattern(5, 7, OUT, -1)];
    assert BadConstant(patterns[0]);
    SomePathRunsIff(patterns);
    OneIsConnected(patterns);
    var ok, overflow;
    ok, plan, overflow := GenerateForPatterns(patterns, map[], _ => true, (_, _) => 0.0, (_, _) => 0.0);
  }

  lemma OneIsConnected(ts: seq<Pattern>)
    requires |ts| == 1
    ensures Connected(ts)
  {
    assert forall inside: seq<bool> :: |inside| == 1 ==> NoneSet(inside) || AllSet(inside);
  }

  lemma StartOk(ts: seq<Pattern>, none: seq<bool>)
    requires |none| == |ts| && NoneSet(none)
    ensures Covers(ts, none, []) && Ordered([], []) && FinalCols([], []) == [] && CountSet(none) == 0
  {
    CountNone(none);
  }

  lemma CountedSwap(ts: seq<Pattern>, counted: int -> bool, i: nat)
    requires i < |ts|
    ensures AllCounted(Swap(ts, i), counted) <==> AllCounted(ts, counted)
  {
    hide Counted;
    var s := Swap(ts, i);
    assert forall k :: 0 <= k < |ts| && k != 0 && k != i ==> s[k] == ts[k];
    assert s[0] == ts[i] && s[i] == ts[0];
    if AllCounted(s, counted) {
      forall k | 0 <= k < |ts|
        ensures Counted(ts[k], counted)
      {
        var j := if k == 0 then i else if k == i then 0 else k;
        assert s[j] == ts[k];
      }
    }
  }

  lemma LoopsSwap(ts: seq<Pattern>, i: nat)
    requires i < |ts|
    ensures AllLoops(Swap(ts, i)) <==> AllLoops(ts)
  {
    var s := Swap(ts, i);
    if AllLoops(ts) {
      forall k | 0 <= k < |s|
        ensures SelfLoop(s[k], s[0].subj)
      {
        assert SelfLoop(ts[i], ts[0].subj) && SelfLoop(ts[0], ts[0].subj) && SelfLoop(ts[k], ts[0].subj);
      }
    }
    if AllLoops(s) {
      forall k | 0 <= k < |ts|
        ensures SelfLoop(ts[k], ts[0].subj)
      {
        assert SelfLoop(s[i], s[0].subj) && SelfLoop(s[0], s[0].subj) && SelfLoop(s[k], s[0].subj);
      }
    }
  }

  lemma EmptySwap(ts: seq<Pattern>, stat: Stat, i: nat)
    requires i < |ts| && EmptyReason(Swap(ts, i), stat)
    ensures EmptyReason(ts, stat)
  {
    var s := Swap(ts, i);
    var a: nat, b: nat, v: int, p1: int, d1: Dir, p2: int, d2: Dir :| Contradicts(s, stat, a, b, v, p1, d1, p2, d2);
    SwapAt(s, i, a);
    SwapAt(s, i, b);
    SwapTwice(ts, i);
    assert Contradicts(ts, stat, Moved(a, i), Moved(b, i), v, p1, d1, p2, d2);
  }
}
