/**
 * Predicate statistics (core/gstore.hpp, generate_statistic; core/data_statistic.hpp): per
 * vertex, the predicates it has in each direction; per pair of predicates, how often one vertex
 * has both; summed over the servers.  The planner calls a query empty when such a count is zero.
 */
module Statistics {
  import Iteration
  import opened Query
  import opened Plans
  import opened Planner

  /** A used slot of a server's vertex table. */
  datatype Slot = Slot(vid: int, pid: int, dir: Dir, edges: seq<int>)

  datatype DirectP = DirectP(dir: Dir, p: int)

  type Preds = map<int, seq<DirectP>>

  function PredsOf(m: Preds, v: int): seq<DirectP> { if v in m then m[v] else [] }

  /** What one slot says about its vertex. */
  function SlotPreds(s: Slot): seq<DirectP> {
    if s.pid == PREDICATE_ID then []
    else if s.dir == IN then [DirectP(IN, s.pid)]
    else [DirectP(OUT, s.pid)] + if s.pid == TYPE_ID then TypePreds(s.edges) else []
  }

  function TypePreds(types: seq<int>): (r: seq<DirectP>)
    ensures |r| == |types| && forall i :: 0 <= i < |types| ==> r[i] == DirectP(OUT, types[i])
  {
    seq(|types|, i requires 0 <= i < |types| => DirectP(OUT, types[i]))
  }

  /** What all slots say about vertex v, in table order. */
  function VertexPreds(slots: seq<Slot>, v: int): seq<DirectP> {
    if slots == [] then []
    else VertexPreds(slots[..|slots| - 1], v) + if slots[|slots| - 1].vid == v then SlotPreds(slots[|slots| - 1]) else []
  }

  // ---- first pass: the predicates of each vertex ----

  lemma PredsAfter(m: Preds, v: int, vec: seq<DirectP>, x: int)
    ensures PredsOf(m[v := vec], x) == if x == v then vec else PredsOf(m, x)
  {
  }

  method AddSlot(m: Preds, s: Slot) returns (r: Preds)
    ensures forall v :: PredsOf(r, v) == PredsOf(m, v) + if s.vid == v then SlotPreds(s) else []
  {
    hide PredsOf, TypePreds;
    if s.pid == PREDICATE_ID { return m; }
    var vec := PredsOf(m, s.vid);
    if s.dir == IN {
      vec := vec + [DirectP(IN, s.pid)];
    } else {
      vec := vec + [DirectP(OUT, s.pid)];
      if s.pid == TYPE_ID { vec := AddTypes(vec, s.edges); }
    }
    assert vec == PredsOf(m, s.vid) + SlotPreds(s);
    r := m[s.vid := vec];
    forall v
      ensures PredsOf(r, v) == PredsOf(m, v) + if s.vid == v then SlotPreds(s) else []
    {
      PredsAfter(m, s.vid, vec, v);
    }
  }

  method AddTypes(vec: seq<DirectP>, types: seq<int>) returns (r: seq<DirectP>)
    ensures r == vec + TypePreds(types)
  {
    r := vec;
    for j := 0 to |types|
      invariant r == vec + TypePreds(types)[..j]
    {
      r := r + [DirectP(OUT, types[j])];
    }
  }

  method CollectPreds(slots: seq<Slot>) returns (m: Preds)
    ensures forall v :: PredsOf(m, v) == VertexPreds(slots, v)
  {
    hide SlotPreds;
    m := map[];
    for i := 0 to |slots|
      invariant forall v :: PredsOf(m, v) == VertexPreds(slots[..i], v)
    {
      assert slots[..i + 1][..i] == slots[..i];
      m := AddSlot(m, slots[i]);
    }
    assert slots[..|slots|] == slots;
  }

  // ---- second pass: pairs of predicates on one vertex ----

  type Pairs = multiset<(DirectP, DirectP)>

  /** A pair, smaller predicate first. */
  function Ordered(a: DirectP, b: DirectP): (DirectP, DirectP) { if a.p < b.p then (a, b) else (b, a) }

  ghost function RowPairs(vec: seq<DirectP>, i: nat, j: nat): Pairs
    requires i < j <= |vec|
    decreases j
  {
    if j == i + 1 then multiset{} else RowPairs(vec, i, j - 1) + multiset{Ordered(vec[i], vec[j - 1])}
  }

  ghost function PairsTo(vec: seq<DirectP>, n: nat): Pairs
    requires n <= |vec|
  {
    if n == 0 then multiset{} else PairsTo(vec, n - 1) + RowPairs(vec, n - 1, |vec|)
  }

  ghost function AllPairs(vecs: seq<seq<DirectP>>): Pairs {
    if vecs == [] then multiset{} else AllPairs(vecs[..|vecs| - 1]) + PairsTo(vecs[|vecs| - 1], |vecs[|vecs| - 1]|)
  }

  /** The counts are those of the pairs. */
  ghost predicate Counts(stat: Stat, pairs: Pairs) {
    forall p1, d1, p2, d2 :: p1 <= p2 ==> Field(Pair(stat, p1, p2), d1, d2) == pairs[(DirectP(d1, p1), DirectP(d2, p2))]
  }

  function Bump(f: FourNum, d1: Dir, d2: Dir): (r: FourNum)
    ensures forall e1, e2 :: Field(r, e1, e2) == Field(f, e1, e2) + if e1 == d1 && e2 == d2 then 1 else 0
  {
    match (d1, d2)
    case (OUT, OUT) => f.(outOut := f.outOut + 1)
    case (OUT, IN) => f.(outIn := f.outIn + 1)
    case (IN, IN) => f.(inIn := f.inIn + 1)
    case (IN, OUT) => f.(inOut := f.inOut + 1)
  }

  lemma CountsBump(stat: Stat, pairs: Pairs, p1: int, d1: Dir, p2: int, d2: Dir)
    requires Counts(stat, pairs) && p1 <= p2
    ensures Counts(stat[(p1, p2) := Bump(Pair(stat, p1, p2), d1, d2)], pairs + multiset{(DirectP(d1, p1), DirectP(d2, p2))})
  {
    hide Field, Bump;
    var stat' := stat[(p1, p2) := Bump(Pair(stat, p1, p2), d1, d2)];
    var pairs' := pairs + multiset{(DirectP(d1, p1), DirectP(d2, p2))};
    forall q1, e1, q2, e2 | q1 <= q2
      ensures Field(Pair(stat', q1, q2), e1, e2) == pairs'[(DirectP(e1, q1), DirectP(e2, q2))]
    {
      assert Field(Pair(stat, q1, q2), e1, e2) == pairs[(DirectP(e1, q1), DirectP(e2, q2))];
    }
  }

  method CountPair(stat: Stat, a: DirectP, b: DirectP, ghost pairs: Pairs) returns (r: Stat)
    requires Counts(stat, pairs)
    ensures Counts(r, pairs + multiset{Ordered(a, b)})
  {
    hide Counts;
    var p1, d1, p2, d2 := a.p, a.dir, b.p, b.dir;
    if !(a.p < b.p) { p1, d1, p2, d2 := b.p, b.dir, a.p, a.dir; }
    CountsBump(stat, pairs, p1, d1, p2, d2);
    var f := Pair(stat, p1, p2);
    if d1 == OUT && d2 == OUT { f := f.(outOut := f.outOut + 1); }
    if d1 == OUT && d2 == IN { f := f.(outIn := f.outIn + 1); }
    if d1 == IN && d2 == IN { f := f.(inIn := f.inIn + 1); }
    if d1 == IN && d2 == OUT { f := f.(inOut := f.inOut + 1); }
    r := stat[(p1, p2) := f];
  }

  method CountRow(stat: Stat, vec: seq<DirectP>, i: nat, ghost pairs: Pairs) returns (r: Stat)
    requires i < |vec| && Counts(stat, pairs)
    ensures Counts(r, pairs + RowPairs(vec, i, |vec|))
  {
    hide Counts;
    r := stat;
    assert pairs + RowPairs(vec, i, i + 1) == pairs;
    for j := i + 1 to |vec|
      invariant Counts(r, pairs + RowPairs(vec, i, j))
    {
      r := CountPair(r, vec[i], vec[j], pairs + RowPairs(vec, i, j));
      assert pairs + RowPairs(vec, i, j) + multiset{Ordered(vec[i], vec[j])} == pairs + RowPairs(vec, i, j + 1);
    }
  }

  /** All pairs on one vertex. */
  method CountVertex(stat: Stat, vec: seq<DirectP>, ghost pairs: Pairs) returns (r: Stat)
    requires Counts(stat, pairs)
    ensures Counts(r, pairs + PairsTo(vec, |vec|))
  {
    hide Counts, RowPairs;
    r := stat;
    assert pairs + PairsTo(vec, 0) == pairs;
    for i := 0 to |vec|
      invariant Counts(r, pairs + PairsTo(vec, i))
    {
      r := CountRow(r, vec, i, pairs + PairsTo(vec, i));
      assert pairs + PairsTo(vec, i) + RowPairs(vec, i, |vec|) == pairs + PairsTo(vec, i + 1);
    }
  }

  /** The correlation counts of one server; vertices may be visited in any order. */
  method GenerateStatistic(slots: seq<Slot>) returns (stat: Stat, ghost order: seq<int>)
    ensures Distinct(order) && forall v :: v !in order ==> VertexPreds(slots, v) == []
    ensures Counts(stat, AllPairs(VecsOf(slots, order)))
  {
    hide Counts, PairsTo, AllPairs, VertexPreds, VecsOf;
    var m := CollectPreds(slots);
    stat, order := map[], [];
    NoCounts(slots);
    var todo: set<int> := m.Keys;
    while todo != {}
      decreases todo
      invariant todo <= m.Keys
      invariant forall v :: v in m ==> v in todo || v in order
      invariant Distinct(order) && forall v :: v in order ==> v !in todo
      invariant Counts(stat, AllPairs(VecsOf(slots, order)))
    {
      var v := Iteration.Any(todo);
      assert m[v] == PredsOf(m, v) == VertexPreds(slots, v);
      VisitNext(slots, order, v);
      stat := CountVertex(stat, m[v], AllPairs(VecsOf(slots, order)));
      DistinctConcat(order, [v]);
      order := order + [v];
      todo := todo - {v};
    }
    forall v | v !in order
      ensures VertexPreds(slots, v) == []
    {
      assert v !in m;
      assert PredsOf(m, v) == VertexPreds(slots, v);
    }
  }

  lemma NoCounts(slots: seq<Slot>)
    ensures Counts(map[], AllPairs(VecsOf(slots, [])))
  {
  }

  lemma VisitNext(slots: seq<Slot>, order: seq<int>, v: int)
    ensures AllPairs(VecsOf(slots, order + [v]))
      == AllPairs(VecsOf(slots, order)) + PairsTo(VertexPreds(slots, v), |VertexPreds(slots, v)|)
  {
    hide PairsTo;
    var a, b := VecsOf(slots, order), VecsOf(slots, order + [v]);
    assert b[..|a|] == a && b[|a|] == VertexPreds(slots, v);
  }

  ghost function VecsOf(slots: seq<Slot>, order: seq<int>): (r: seq<seq<DirectP>>)
    ensures |r| == |order| && forall i :: 0 <= i < |order| ==> r[i] == VertexPreds(slots, order[i])
  {
    seq(|order|, i requires 0 <= i < |order| => VertexPreds(slots, order[i]))
  }

  // ---- summing up over the servers ----

  function Add(a: FourNum, b: FourNum): (r: FourNum)
    ensures forall d1, d2 :: Field(r, d1, d2) == Field(a, d1, d2) + Field(b, d1, d2)
  {
    FourNum(a.outOut + b.outOut, a.outIn + b.outIn, a.inIn + b.inIn, a.inOut + b.inOut)
  }

  /** The keys that are not left have been added. */
  ghost predicate AddedSo(r: Stat, all: Stat, part: Stat, left: set<(int, int)>) {
    forall k: (int, int) :: At(r, k) == if k in part && k !in left then Add(At(all, k), part[k]) else At(all, k)
  }

  function At(stat: Stat, k: (int, int)): FourNum { Pair(stat, k.0, k.1) }

  lemma AddedOne(r: Stat, all: Stat, part: Stat, left: set<(int, int)>, key: (int, int))
    requires AddedSo(r, all, part, left) && left <= part.Keys && key in left
    ensures At(r, key) == At(all, key)
    ensures AddedSo(r[key := Add(At(r, key), part[key])], all, part, left - {key})
  {
    hide Add;
    assert At(r, key) == At(all, key);
    var r' := r[key := Add(At(r, key), part[key])];
    forall k: (int, int)
      ensures At(r', k) == if k in part && k !in left - {key} then Add(At(all, k), part[k]) else At(all, k)
    {
      assert k == (k.0, k.1);
      if k != key { assert At(r', k) == At(r, k); }
    }
  }

  method AddStat(all: Stat, part: Stat) returns (r: Stat)
    ensures AddedSo(r, all, part, {})
  {
    hide AddedSo;
    r := all;
    var todo := part.Keys;
    NoneAdded(all, part);
    while todo != {}
      decreases todo
      invariant todo <= part.Keys && AddedSo(r, all, part, todo)
    {
      var key := Iteration.Any(todo);
      var value := part[key];
      AddedOne(r, all, part, todo, key);
      if key !in r {
        r := r[key := value];
      } else {
        var f := r[key];
        r := r[key := FourNum(f.outOut + value.outOut, f.outIn + value.outIn, f.inIn + value.inIn, f.inOut + value.inOut)];
      }
      todo := todo - {key};
    }
  }

  lemma NoneAdded(all: Stat, part: Stat)
    ensures AddedSo(all, all, part, part.Keys)
  {
  }

  ghost function SumPairs(parts: seq<Pairs>): Pairs {
    if parts == [] then multiset{} else SumPairs(parts[..|parts| - 1]) + parts[|parts| - 1]
  }

  lemma CountsAdd(a: Stat, b: Stat, r: Stat, pa: Pairs, pb: Pairs)
    requires Counts(a, pa) && Counts(b, pb)
    requires AddedSo(r, a, b, {})
    ensures Counts(r, pa + pb)
  {
    hide Field, Add;
    forall p1, d1, p2, d2 | p1 <= p2
      ensures Field(Pair(r, p1, p2), d1, d2) == (pa + pb)[(DirectP(d1, p1), DirectP(d2, p2))]
    {
      assert At(r, (p1, p2)) == if (p1, p2) in b then Add(At(a, (p1, p2)), At(b, (p1, p2))) else At(a, (p1, p2));
      if (p1, p2) !in b { NoField(d1, d2); }
      assert Field(Pair(a, p1, p2), d1, d2) == pa[(DirectP(d1, p1), DirectP(d2, p2))];
      assert Field(Pair(b, p1, p2), d1, d2) == pb[(DirectP(d1, p1), DirectP(d2, p2))];
    }
  }

  lemma NoField(d1: Dir, d2: Dir)
    ensures Field(FourNum(0, 0, 0, 0), d1, d2) == 0
  {
  }

  /** The master sums what the servers send. */
  method GatherStat(stats: seq<Stat>, ghost pairs: seq<Pairs>) returns (all: Stat)
    requires |stats| == |pairs| && forall i :: 0 <= i < |stats| ==> Counts(stats[i], pairs[i])
    ensures Counts(all, SumPairs(pairs))
  {
    hide Counts, AddedSo;
    all := map[];
    NoneCounted();
    for i := 0 to |stats|
      invariant Counts(all, SumPairs(pairs[..i]))
    {
      var before := all;
      all := AddStat(before, stats[i]);
      CountsAdd(before, stats[i], all, SumPairs(pairs[..i]), pairs[i]);
      assert pairs[..i + 1][..i] == pairs[..i];
    }
    assert pairs[..|pairs|] == pairs;
  }

  lemma NoneCounted()
    ensures Counts(map[], SumPairs([]))
  {
  }

  // ---- a zero count means that no vertex meets both constraints ----

  lemma {:induction false} InRowPairs(vec: seq<DirectP>, i: nat, j: nat, k: nat)
    requires i < k < j <= |vec|
    ensures Ordered(vec[i], vec[k]) in RowPairs(vec, i, j)
    decreases j
  {
    if k < j - 1 { InRowPairs(vec, i, j - 1, k); }
  }

  lemma {:induction false} InPairsTo(vec: seq<DirectP>, n: nat, i: nat, k: nat)
    requires i < n <= |vec| && i < k < |vec|
    ensures Ordered(vec[i], vec[k]) in PairsTo(vec, n)
    decreases n
  {
    if i == n - 1 { InRowPairs(vec, i, |vec|, k); } else { InPairsTo(vec, n - 1, i, k); }
  }

  lemma BothInPairs(vec: seq<DirectP>, a: DirectP, b: DirectP)
    requires a in vec && b in vec && a.p < b.p
    ensures (a, b) in PairsTo(vec, |vec|)
  {
    var i :| 0 <= i < |vec| && vec[i] == a;
    var k :| 0 <= k < |vec| && vec[k] == b;
    if i < k { InPairsTo(vec, |vec|, i, k); } else { InPairsTo(vec, |vec|, k, i); }
  }

  lemma {:induction false} InAllPairs(vecs: seq<seq<DirectP>>, i: nat, x: (DirectP, DirectP))
    requires i < |vecs| && x in PairsTo(vecs[i], |vecs[i]|)
    ensures x in AllPairs(vecs)
  {
    if i < |vecs| - 1 { InAllPairs(vecs[..|vecs| - 1], i, x); }
  }

  lemma {:induction false} InSumPairs(parts: seq<Pairs>, i: nat, x: (DirectP, DirectP))
    requires i < |parts| && x in parts[i]
    ensures x in SumPairs(parts)
  {
    if i < |parts| - 1 { InSumPairs(parts[..|parts| - 1], i, x); }
  }

  /** What the servers found: the slots of each, and the order each visited its vertices in. */
  ghost predicate Gathered(stat: Stat, slots: seq<seq<Slot>>, orders: seq<seq<int>>) {
    && |orders| == |slots|
    && (forall i :: 0 <= i < |slots| ==> Distinct(orders[i]))
    && (forall i, v :: 0 <= i < |slots| && v !in orders[i] ==> VertexPreds(slots[i], v) == [])
    && Counts(stat, SumPairs(PairsOf(slots, orders)))
  }

  ghost function PairsOf(slots: seq<seq<Slot>>, orders: seq<seq<int>>): (r: seq<Pairs>)
    requires |orders| == |slots|
    ensures |r| == |slots| && forall i :: 0 <= i < |slots| ==> r[i] == AllPairs(VecsOf(slots[i], orders[i]))
  {
    seq(|slots|, i requires 0 <= i < |slots| => AllPairs(VecsOf(slots[i], orders[i])))
  }

  /** The planner's statistics, from scanning every server's table to the sum. */
  method AllStatistics(slots: seq<seq<Slot>>) returns (stat: Stat, ghost orders: seq<seq<int>>)
    ensures Gathered(stat, slots, orders)
  {
    hide Counts, AllPairs, VecsOf, VertexPreds, SumPairs, Distinct;
    var stats: seq<Stat> := [];
    orders := [];
    for i := 0 to |slots|
      invariant |stats| == |orders| == i
      invariant forall k :: 0 <= k < i ==> Counts(stats[k], AllPairs(VecsOf(slots[k], orders[k])))
      invariant forall k :: 0 <= k < i ==> Distinct(orders[k])
      invariant forall k, v :: 0 <= k < i && v !in orders[k] ==> VertexPreds(slots[k], v) == []
    {
      var s, o := GenerateStatistic(slots[i]);
      stats, orders := stats + [s], orders + [o];
    }
    stat := GatherStat(stats, PairsOf(slots, orders));
  }

  // ---- what the counts are ----

  ghost function Times(vec: seq<DirectP>, a: DirectP): nat { multiset(vec)[a] }

  function Product(x: nat, y: nat): (z: nat) {
    if x == 0 then 0 else Product(x - 1, y) + y
  }

  lemma {:induction false} ProductNext(x: nat, y: nat)
    ensures Product(x + 1, y) == Product(x, y) + y && Product(x, y + 1) == Product(x, y) + x
    decreases x
  {
    if x > 0 { ProductNext(x - 1, y); }
  }

  lemma {:induction false} ProductIs(x: nat, y: nat)
    ensures Product(x, y) == x * y
  {
    if x > 0 {
      ProductIs(x - 1, y);
      assert (x - 1) * y + y == x * y;
    }
  }

  /** The same between two positions. */
  ghost function TimesIn(vec: seq<DirectP>, i: nat, j: nat, a: DirectP): nat
    requires i <= j <= |vec|
    decreases j
  {
    if i == j then 0 else TimesIn(vec, i, j - 1, a) + if vec[j - 1] == a then 1 else 0
  }

  lemma {:induction false} TimesFirst(vec: seq<DirectP>, i: nat, j: nat, a: DirectP)
    requires i < j <= |vec|
    ensures TimesIn(vec, i, j, a) == TimesIn(vec, i + 1, j, a) + if vec[i] == a then 1 else 0
    decreases j
  {
    if i + 1 < j { TimesFirst(vec, i, j - 1, a); }
  }

  lemma {:induction false} TimesAll(vec: seq<DirectP>, j: nat, a: DirectP)
    requires j <= |vec|
    ensures TimesIn(vec, 0, j, a) == Times(vec[..j], a)
  {
    if j > 0 {
      TimesAll(vec, j - 1, a);
      assert vec[..j] == vec[..j - 1] + [vec[j - 1]];
    }
  }

  lemma OnePair(x: DirectP, y: DirectP, a: DirectP, b: DirectP, pairs: Pairs)
    requires a.p < b.p
    ensures (pairs + multiset{Ordered(x, y)})[(a, b)] ==
      pairs[(a, b)] + (if x == a && y == b then 1 else 0) + (if x == b && y == a then 1 else 0)
  {
  }

  lemma {:induction false} RowCount(vec: seq<DirectP>, i: nat, j: nat, a: DirectP, b: DirectP)
    requires i < j <= |vec| && a.p < b.p
    ensures RowPairs(vec, i, j)[(a, b)] ==
      (if vec[i] == a then TimesIn(vec, i + 1, j, b) else 0) + (if vec[i] == b then TimesIn(vec, i + 1, j, a) else 0)
    decreases j
  {
    hide Ordered;
    if j > i + 1 {
      RowCount(vec, i, j - 1, a, b);
      OnePair(vec[i], vec[j - 1], a, b, RowPairs(vec, i, j - 1));
    }
  }

  /** Each occurrence of the one is paired with each of the other. */
  lemma {:induction false} PairCount(vec: seq<DirectP>, n: nat, a: DirectP, b: DirectP)
    requires n <= |vec| && a.p < b.p
    ensures PairsTo(vec, n)[(a, b)] + Product(TimesIn(vec, n, |vec|, a), TimesIn(vec, n, |vec|, b))
      == Product(TimesIn(vec, 0, |vec|, a), TimesIn(vec, 0, |vec|, b))
    decreases n
  {
    hide RowPairs, TimesIn, Product;
    if n > 0 {
      PairCount(vec, n - 1, a, b);
      RowCount(vec, n - 1, |vec|, a, b);
      TimesFirst(vec, n - 1, |vec|, a);
      TimesFirst(vec, n - 1, |vec|, b);
      ProductNext(TimesIn(vec, n, |vec|, a), TimesIn(vec, n, |vec|, b));
    }
  }

  lemma VertexCount(vec: seq<DirectP>, a: DirectP, b: DirectP)
    requires a.p < b.p
    ensures PairsTo(vec, |vec|)[(a, b)] == Product(Times(vec, a), Times(vec, b))
  {
    PairCount(vec, |vec|, a, b);
    TimesAll(vec, |vec|, a);
    TimesAll(vec, |vec|, b);
    assert vec[..|vec|] == vec && Product(0, 0) == 0;
  }

  /** How often the vertices of one server have both, and of all servers. */
  ghost function ServerCount(slots: seq<Slot>, order: seq<int>, a: DirectP, b: DirectP): nat {
    if order == [] then 0
    else
      var vec := VertexPreds(slots, order[|order| - 1]);
      ServerCount(slots, order[..|order| - 1], a, b) + Product(Times(vec, a), Times(vec, b))
  }

  ghost function TotalCount(slots: seq<seq<Slot>>, orders: seq<seq<int>>, a: DirectP, b: DirectP): nat
    requires |orders| == |slots|
  {
    if slots == [] then 0
    else TotalCount(slots[..|slots| - 1], orders[..|slots| - 1], a, b) + ServerCount(slots[|slots| - 1], orders[|slots| - 1], a, b)
  }

  lemma {:induction false} ServerCounts(slots: seq<Slot>, order: seq<int>, a: DirectP, b: DirectP)
    requires a.p < b.p
    ensures AllPairs(VecsOf(slots, order))[(a, b)] == ServerCount(slots, order, a, b)
    decreases |order|
  {
    hide PairsTo, VertexPreds, Times, Product;
    if order != [] {
      var front, last := order[..|order| - 1], order[|order| - 1];
      var vecs := VecsOf(slots, order);
      assert vecs[..|vecs| - 1] == VecsOf(slots, front) && vecs[|vecs| - 1] == VertexPreds(slots, last);
      ServerCounts(slots, front, a, b);
      VertexCount(VertexPreds(slots, last), a, b);
    }
  }

  lemma {:induction false} TotalCounts(slots: seq<seq<Slot>>, orders: seq<seq<int>>, a: DirectP, b: DirectP)
    requires |orders| == |slots| && a.p < b.p
    ensures SumPairs(PairsOf(slots, orders))[(a, b)] == TotalCount(slots, orders, a, b)
    decreases |slots|
  {
    hide AllPairs, ServerCount, VecsOf;
    if slots != [] {
      var n := |slots| - 1;
      var all, front := PairsOf(slots, orders), PairsOf(slots[..n], orders[..n]);
      assert all[..n] == front;
      TotalCounts(slots[..n], orders[..n], a, b);
      ServerCounts(slots[n], orders[n], a, b);
    }
  }

  /** The count is the sum, over servers and ids, of how often the id has the one times how often it
      has the other; nothing is counted twice. */
  lemma CountIsTotal(stat: Stat, slots: seq<seq<Slot>>, orders: seq<seq<int>>, a: DirectP, b: DirectP)
    requires Gathered(stat, slots, orders) && a.p < b.p
    ensures Correlation(stat, a.p, a.dir, b.p, b.dir) == TotalCount(slots, orders, a, b)
  {
    hide SumPairs, Field, Pair, VertexPreds, TotalCount;
    TotalCounts(slots, orders, a, b);
    assert (a, b) == (DirectP(a.dir, a.p), DirectP(b.dir, b.p));
  }

  ghost function HavingBoth(slots: seq<Slot>, order: seq<int>, a: DirectP, b: DirectP): set<int> {
    set v | v in order && a in VertexPreds(slots, v) && b in VertexPreds(slots, v)
  }

  lemma HavingBothMore(slots: seq<Slot>, front: seq<int>, v: int, a: DirectP, b: DirectP)
    requires v !in front
    ensures |HavingBoth(slots, front + [v], a, b)| ==
      |HavingBoth(slots, front, a, b)| + if a in VertexPreds(slots, v) && b in VertexPreds(slots, v) then 1 else 0
  {
    hide VertexPreds;
    var before, after := HavingBoth(slots, front, a, b), HavingBoth(slots, front + [v], a, b);
    if a in VertexPreds(slots, v) && b in VertexPreds(slots, v) {
      assert after == before + {v};
    } else {
      assert after == before;
    }
  }

  /** Where each id has each at most once, a server counts the ids that have both. */
  lemma {:induction false} CountIsNumber(slots: seq<Slot>, order: seq<int>, a: DirectP, b: DirectP)
    requires Distinct(order)
    requires forall v :: v in order ==> Times(VertexPreds(slots, v), a) <= 1 && Times(VertexPreds(slots, v), b) <= 1
    ensures ServerCount(slots, order, a, b) == |HavingBoth(slots, order, a, b)|
    decreases |order|
  {
    hide VertexPreds, Times, Product;
    if order == [] {
      assert HavingBoth(slots, order, a, b) == {};
    } else {
      var front, last := order[..|order| - 1], order[|order| - 1];
      assert order == front + [last] && last !in front;
      CountIsNumber(slots, front, a, b);
      HavingBothMore(slots, front, last, a, b);
      BothOrNot(VertexPreds(slots, last), a, b);
    }
  }

  lemma BothOrNot(vec: seq<DirectP>, a: DirectP, b: DirectP)
    requires Times(vec, a) <= 1 && Times(vec, b) <= 1
    ensures Product(Times(vec, a), Times(vec, b)) == if a in vec && b in vec then 1 else 0
  {
    assert a in vec <==> a in multiset(vec);
    assert b in vec <==> b in multiset(vec);
    assert Product(1, 1) == 1 && Product(1, 0) == 0 && Product(0, 1) == 0;
  }

  lemma SomeVertexCounted(stat: Stat, slots: seq<seq<Slot>>, orders: seq<seq<int>>, i: nat, v: int, a: DirectP, b: DirectP)
    requires Gathered(stat, slots, orders) && i < |slots|
    requires a in VertexPreds(slots[i], v) && b in VertexPreds(slots[i], v) && a.p < b.p
    ensures Field(Pair(stat, a.p, b.p), a.dir, b.dir) > 0
  {
    hide VertexPreds, PairsTo, AllPairs, SumPairs, Field, Pair;
    BothInPairs(VertexPreds(slots[i], v), a, b);
    assert v in orders[i];
    var k :| 0 <= k < |orders[i]| && orders[i][k] == v;
    InAllPairs(VecsOf(slots[i], orders[i]), k, (a, b));
    InSumPairs(PairsOf(slots, orders), i, (a, b));
    assert (a, b) == (DirectP(a.dir, a.p), DirectP(b.dir, b.p));
  }

  /** A vertex that meets two constraints is counted for them. */
  lemma MeetsBothCounted(stat: Stat, slots: seq<seq<Slot>>, orders: seq<seq<int>>, i: nat, v: int, p1: int, d1: Dir, p2: int, d2: Dir)
    requires Gathered(stat, slots, orders) && i < |slots| && p1 != p2
    requires DirectP(d1, p1) in VertexPreds(slots[i], v) && DirectP(d2, p2) in VertexPreds(slots[i], v)
    ensures Correlation(stat, p1, d1, p2, d2) > 0
  {
    hide VertexPreds, Gathered, Field, Pair;
    if p1 < p2 {
      SomeVertexCounted(stat, slots, orders, i, v, DirectP(d1, p1), DirectP(d2, p2));
    } else {
      SomeVertexCounted(stat, slots, orders, i, v, DirectP(d2, p2), DirectP(d1, p1));
    }
  }

  lemma {:induction false} FromRowPairs(vec: seq<DirectP>, i: nat, j: nat, x: (DirectP, DirectP))
    requires i < j <= |vec| && x in RowPairs(vec, i, j)
    ensures x.0 in vec && x.1 in vec
    decreases j
  {
    if x != Ordered(vec[i], vec[j - 1]) { FromRowPairs(vec, i, j - 1, x); }
  }

  lemma {:induction false} FromPairsTo(vec: seq<DirectP>, n: nat, x: (DirectP, DirectP))
    requires n <= |vec| && x in PairsTo(vec, n)
    ensures x.0 in vec && x.1 in vec
    decreases n
  {
    if x in RowPairs(vec, n - 1, |vec|) { FromRowPairs(vec, n - 1, |vec|, x); } else { FromPairsTo(vec, n - 1, x); }
  }

  lemma {:induction false} FromAllPairs(vecs: seq<seq<DirectP>>, x: (DirectP, DirectP)) returns (i: nat)
    requires x in AllPairs(vecs)
    ensures i < |vecs| && x.0 in vecs[i] && x.1 in vecs[i]
  {
    var n := |vecs| - 1;
    if x in PairsTo(vecs[n], |vecs[n]|) {
      i := n;
      FromPairsTo(vecs[n], |vecs[n]|, x);
    } else {
      i := FromAllPairs(vecs[..n], x);
    }
  }

  lemma {:induction false} FromSumPairs(parts: seq<Pairs>, x: (DirectP, DirectP)) returns (i: nat)
    requires x in SumPairs(parts)
    ensures i < |parts| && x in parts[i]
  {
    var n := |parts| - 1;
    if x in parts[n] { i := n; } else { i := FromSumPairs(parts[..n], x); }
  }

  /** Some id in some server's table has both; id 0, which index lists are stored under, too. */
  ghost predicate HaveBoth(slots: seq<seq<Slot>>, a: DirectP, b: DirectP) {
    exists i, v :: 0 <= i < |slots| && a in VertexPreds(slots[i], v) && b in VertexPreds(slots[i], v)
  }

  /** The count the planner looks up is zero exactly if no id of the tables, id 0 of the index
      lists included, has both. */
  lemma ZeroIffNone(stat: Stat, slots: seq<seq<Slot>>, orders: seq<seq<int>>, p1: int, d1: Dir, p2: int, d2: Dir)
    requires Gathered(stat, slots, orders) && p1 != p2
    ensures Correlation(stat, p1, d1, p2, d2) == 0 <==> !HaveBoth(slots, DirectP(d1, p1), DirectP(d2, p2))
  {
    hide VertexPreds, PairsTo, AllPairs, SumPairs, Field, Pair;
    var a, b := DirectP(d1, p1), DirectP(d2, p2);
    if HaveBoth(slots, a, b) {
      var i, v :| 0 <= i < |slots| && a in VertexPreds(slots[i], v) && b in VertexPreds(slots[i], v);
      MeetsBothCounted(stat, slots, orders, i, v, p1, d1, p2, d2);
    }
    if Correlation(stat, p1, d1, p2, d2) > 0 {
      var x := if p1 < p2 then (a, b) else (b, a);
      assert x in SumPairs(PairsOf(slots, orders));
      var i := FromSumPairs(PairsOf(slots, orders), x);
      var k := FromAllPairs(VecsOf(slots[i], orders[i]), x);
      assert x.0 in VertexPreds(slots[i], orders[i][k]) && x.1 in VertexPreds(slots[i], orders[i][k]);
    }
  }

  // ---- the tables hold the graph ----

  /** The table of server i has a slot for every list of its own vertices that is not empty. */
  ghost predicate TableHolds(slots: seq<Slot>, g: set<Triple>, n: nat, i: nat)
    requires n > 0
  {
    forall v: Id, p, d, x: Id :: v % n == i && Stored(p, d) && Edge(g, v, p, d, x) ==> HasSlot(slots, v, p, d, x)
  }

  ghost predicate HasSlot(slots: seq<Slot>, v: Id, p: int, d: Dir, x: Id) {
    exists k :: 0 <= k < |slots| && slots[k].vid == v && slots[k].pid == p && slots[k].dir == d && (x as int) in slots[k].edges
  }

  lemma {:induction false} InVertexPreds(slots: seq<Slot>, k: nat, a: DirectP)
    requires k < |slots| && a in SlotPreds(slots[k])
    ensures a in VertexPreds(slots, slots[k].vid)
  {
    hide SlotPreds;
    if k < |slots| - 1 { InVertexPreds(slots[..|slots| - 1], k, a); }
  }

  /** A list shows up in what is said about its vertex; a type list shows its types. */
  lemma SlotCounts(slots: seq<Slot>, v: Id, p: int, d: Dir, x: Id)
    requires HasSlot(slots, v, p, d, x) && Stored(p, d)
    ensures DirectP(d, p) in VertexPreds(slots, v)
    ensures p == TYPE_ID ==> DirectP(OUT, x) in VertexPreds(slots, v)
  {
    hide VertexPreds;
    var k :| 0 <= k < |slots| && slots[k].vid == v && slots[k].pid == p && slots[k].dir == d && (x as int) in slots[k].edges;
    var sp := SlotPreds(slots[k]);
    assert sp[0] == DirectP(d, p);
    InVertexPreds(slots, k, sp[0]);
    if p == TYPE_ID {
      var j :| 0 <= j < |slots[k].edges| && slots[k].edges[j] == x;
      assert sp[1 + j] == DirectP(OUT, x);
      InVertexPreds(slots, k, sp[1 + j]);
    }
  }

  /** A satisfied triple's demand on a variable shows up for the variable's vertex. */
  lemma DemandShows(slots: seq<Slot>, g: set<Triple>, n: nat, t: Pattern, cols: seq<int>, row: Row, v: int, p: int, d: Dir)
    requires n > 0 && IsTriple(t) && Demands(t, v, p, d) && |row| == |cols|
    requires Bound(cols, t.subj) && Bound(cols, t.obj) && Sat(g, t, cols, row)
    requires TableHolds(slots, g, n, Val(cols, row, v) % n)
    ensures DirectP(d, p) in VertexPreds(slots, Val(cols, row, v))
  {
    hide VertexPreds, HasSlot;
    var a, b := Val(cols, row, t.subj), Val(cols, row, t.obj);
    assert Edge(g, a, t.pred, OUT, b);
    if d == OUT {
      assert Stored(t.pred, OUT);
      SlotCounts(slots, a, t.pred, OUT, b);
    } else {
      assert Edge(g, b, t.pred, IN, a) && Stored(t.pred, IN);
      SlotCounts(slots, b, t.pred, IN, a);
    }
  }

  /** When the planner calls a query empty, it has no solution. */
  lemma EmptyIsSound(ts: seq<Pattern>, stat: Stat, slots: seq<seq<Slot>>, orders: seq<seq<int>>, g: set<Triple>, cols: seq<int>, row: Row)
    requires IsQuery(ts) && EmptyReason(ts, stat) && Gathered(stat, slots, orders) && |slots| > 0
    requires forall i :: 0 <= i < |slots| ==> TableHolds(slots[i], g, |slots|, i)
    ensures !AllSat(g, ts, cols, row)
  {
    hide VertexPreds, Gathered, TableHolds, Correlation, Sat;
    if AllSat(g, ts, cols, row) {
      var i: nat, j: nat, v: int, p1: int, d1: Dir, p2: int, d2: Dir :| Contradicts(ts, stat, i, j, v, p1, d1, p2, d2);
      var s := Val(cols, row, v) % |slots|;
      DemandShows(slots[s], g, |slots|, ts[i], cols, row, v, p1, d1);
      DemandShows(slots[s], g, |slots|, ts[j], cols, row, v, p2, d2);
      MeetsBothCounted(stat, slots, orders, s, Val(cols, row, v), p1, d1, p2, d2);
      assert false;
    }
  }
}
