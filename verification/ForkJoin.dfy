/**
 * Fork-join execution of a plan over several servers (core/engine.hpp, core/query.hpp).
 *
 * After each pattern a server may go on in place or split its rows by the owner of the next
 * start vertex, send one sub-query to every server, and append the replies in the order they
 * come back.  Sub-queries make the same choice again.  A plan that starts from an index is
 * split over all servers and, on each, over mt_factor engine threads.
 */
module ForkJoin {
  import opened Query

  /** The choice made after a pattern: it was the last one, go on in place, or fork one
      sub-query per server and take the replies in the given order. */
  datatype Sched = Last | Go(next: Sched) | Fork(kids: seq<Sched>, order: seq<nat>)

  // ---- splitting rows over servers ----

  function Owner(v: Id, n: nat): (i: nat)
    requires n > 0
    ensures i < n
  {
    v % n
  }

  /** The rows whose start vertex belongs to server i. */
  function Share(cols: seq<int>, x: int, n: nat, i: nat, rows: seq<Row>): (r: seq<Row>)
    requires n > 0 && Bound(cols, x) && Shaped(cols, rows)
    ensures Shaped(cols, r)
    ensures forall k :: 0 <= k < |r| ==> Owner(Val(cols, r[k], x), n) == i
    decreases |rows|
  {
    if rows == [] then []
    else (if Owner(Val(cols, rows[0], x), n) == i then [rows[0]] else []) + Share(cols, x, n, i, rows[1..])
  }

  /** All servers, each once, in some order. */
  ghost predicate IsOrder(order: seq<nat>, n: nat) {
    Distinct(order) && (forall j :: 0 <= j < |order| ==> order[j] < n) && forall i :: 0 <= i < n ==> i in order
  }

  /** A schedule for k remaining patterns on n servers. */
  ghost predicate Fits(sched: Sched, k: nat, n: nat)
    decreases k
  {
    match sched
    case Last => k == 0
    case Go(next) => k > 0 && Fits(next, k - 1, n)
    case Fork(kids, order) =>
      k > 0 && |kids| == n && IsOrder(order, n) && forall i :: 0 <= i < n ==> Fits(kids[i], k - 1, n)
  }

  /** The table a query ends with, from its table before the remaining patterns. */
  ghost function Run(st: Store, cols: seq<int>, pats: seq<Pattern>, rows: seq<Row>, sched: Sched): (r: seq<Row>)
    requires st.servers > 0 && cols != [] && Executable(cols, pats) && Shaped(cols, rows) && Fits(sched, |pats|, st.servers)
    ensures Shaped(FinalCols(cols, pats), r)
    decreases |pats|, 1, 0
  {
    match sched
    case Last => rows
    case Go(next) =>
      StepShaped(st, cols, pats[0], rows);
      Run(st, ColsAfter(cols, pats[0]), pats[1..], StepFrom(st, cols, pats[0], rows), next)
    case Fork(kids, order) => Join(st, cols, pats, rows, kids, order)
  }

  /** The replies of the servers in `order`, appended one after the other. */
  ghost function Join(st: Store, cols: seq<int>, pats: seq<Pattern>, rows: seq<Row>, kids: seq<Sched>, order: seq<nat>): (r: seq<Row>)
    requires st.servers > 0 && cols != [] && pats != [] && Executable(cols, pats) && Shaped(cols, rows)
    requires |kids| == st.servers && forall i :: 0 <= i < |kids| ==> Fits(kids[i], |pats| - 1, st.servers)
    requires forall j :: 0 <= j < |order| ==> order[j] < st.servers
    ensures Shaped(FinalCols(cols, pats), r)
    decreases |pats|, 0, |order|
  {
    if order == [] then []
    else
      var part := Share(cols, pats[0].subj, st.servers, order[0], rows);
      StepShaped(st, cols, pats[0], part);
      Run(st, ColsAfter(cols, pats[0]), pats[1..], StepFrom(st, cols, pats[0], part), kids[order[0]])
      + Join(st, cols, pats, rows, kids, order[1..])
  }

  // ---- exploration distributes over rows ----

  lemma {:induction false} StepConcat(st: Store, cols: seq<int>, q: Pattern, a: seq<Row>, b: seq<Row>)
    requires Supported(cols, q) && cols != [] && Shaped(cols, a) && Shaped(cols, b)
    ensures StepFrom(st, cols, q, a + b) == StepFrom(st, cols, q, a) + StepFrom(st, cols, q, b)
  {
    hide StepRow, Val, Supported;
    if a == [] {
      assert a + b == b;
    } else {
      StepConcat(st, cols, q, a[1..], b);
      assert (a + b)[1..] == a[1..] + b;
    }
  }

  lemma {:induction false} ExploreConcat(st: Store, cols: seq<int>, pats: seq<Pattern>, a: seq<Row>, b: seq<Row>)
    requires cols != [] && Executable(cols, pats) && Shaped(cols, a) && Shaped(cols, b)
    ensures Explore(st, cols, pats, a + b) == Explore(st, cols, pats, a) + Explore(st, cols, pats, b)
    decreases |pats|
  {
    if pats != [] {
      var q := pats[0];
      StepShaped(st, cols, q, a);
      StepShaped(st, cols, q, b);
      StepConcat(st, cols, q, a, b);
      ExploreConcat(st, ColsAfter(cols, q), pats[1..], StepFrom(st, cols, q, a), StepFrom(st, cols, q, b));
    }
  }

  lemma ExploreAround(st: Store, cols: seq<int>, pats: seq<Pattern>, u: seq<Row>, r: Row, v: seq<Row>)
    requires cols != [] && Executable(cols, pats) && Shaped(cols, u) && |r| == |cols| && Shaped(cols, v)
    ensures multiset(Explore(st, cols, pats, u + [r] + v))
      == multiset(Explore(st, cols, pats, [r])) + multiset(Explore(st, cols, pats, u + v))
  {
    hide Explore, Executable;
    ExploreConcat(st, cols, pats, u + [r], v);
    ExploreConcat(st, cols, pats, u, [r]);
    ExploreConcat(st, cols, pats, u, v);
  }

  /** The order of the rows does not matter. */
  lemma {:induction false} ExplorePermuted(st: Store, cols: seq<int>, pats: seq<Pattern>, a: seq<Row>, b: seq<Row>)
    requires cols != [] && Executable(cols, pats) && Shaped(cols, a) && Shaped(cols, b)
    requires multiset(a) == multiset(b)
    ensures multiset(Explore(st, cols, pats, a)) == multiset(Explore(st, cols, pats, b))
    decreases |a|
  {
    hide Explore, Executable;
    if a == [] {
      assert |multiset(b)| == 0;
      assert b == [];
    } else {
      var r := a[0];
      var k := FindIn(a, b);
      var u, v := b[..k], b[k + 1..];
      assert b == u + [r] + v;
      assert a == [] + [r] + a[1..] && [] + a[1..] == a[1..];
      ExploreAround(st, cols, pats, u, r, v);
      ExploreAround(st, cols, pats, [], r, a[1..]);
      ExplorePermuted(st, cols, pats, a[1..], u + v);
    }
  }

  lemma FindIn(a: seq<Row>, b: seq<Row>) returns (k: nat)
    requires multiset(a) == multiset(b) && a != []
    ensures k < |b| && b[k] == a[0] && multiset(a[1..]) == multiset(b[..k] + b[k + 1..])
  {
    assert a == [a[0]] + a[1..];
    assert a[0] in multiset(b);
    k :| 0 <= k < |b| && b[k] == a[0];
    TakeOut(b, k);
    TakeOut(a, 0);
    assert a[..0] + a[0 + 1..] == a[1..];
    var x, y := multiset(a[1..]), multiset(b[..k] + b[k + 1..]);
    assert x + multiset{a[0]} == y + multiset{a[0]};
    assert x == (x + multiset{a[0]}) - multiset{a[0]};
    assert y == (y + multiset{a[0]}) - multiset{a[0]};
  }

  lemma TakeOut(s: seq<Row>, k: nat)
    requires k < |s|
    ensures multiset(s) == multiset(s[..k] + s[k + 1..]) + multiset{s[k]}
  {
    assert s == s[..k] + [s[k]] + s[k + 1..];
  }

  // ---- the shares make up the rows ----

  ghost function Gather(cols: seq<int>, x: int, n: nat, order: seq<nat>, rows: seq<Row>): (r: seq<Row>)
    requires n > 0 && Bound(cols, x) && Shaped(cols, rows)
    ensures Shaped(cols, r)
    decreases |order|
  {
    if order == [] then [] else Share(cols, x, n, order[0], rows) + Gather(cols, x, n, order[1..], rows)
  }

  lemma {:induction false} GatherOne(cols: seq<int>, x: int, n: nat, order: seq<nat>, rows: seq<Row>)
    requires n > 0 && Bound(cols, x) && Shaped(cols, rows) && rows != [] && Distinct(order)
    ensures multiset(Gather(cols, x, n, order, rows)) == multiset(Gather(cols, x, n, order, rows[1..]))
      + if Owner(Val(cols, rows[0], x), n) in order then multiset{rows[0]} else multiset{}
    decreases |order|
  {
    if order != [] {
      GatherOne(cols, x, n, order[1..], rows);
    }
  }

  lemma {:induction false} GatherAll(cols: seq<int>, x: int, n: nat, order: seq<nat>, rows: seq<Row>)
    requires n > 0 && Bound(cols, x) && Shaped(cols, rows) && IsOrder(order, n)
    ensures multiset(Gather(cols, x, n, order, rows)) == multiset(rows)
    decreases |rows|
  {
    hide Owner, Val, Gather;
    if rows == [] {
      GatherNone(cols, x, n, order);
    } else {
      GatherOne(cols, x, n, order, rows);
      GatherAll(cols, x, n, order, rows[1..]);
      assert Owner(Val(cols, rows[0], x), n) in order;
      assert rows == [rows[0]] + rows[1..];
    }
  }

  lemma {:induction false} GatherNone(cols: seq<int>, x: int, n: nat, order: seq<nat>)
    requires n > 0 && Bound(cols, x)
    ensures Gather(cols, x, n, order, []) == []
    decreases |order|
  {
    if order != [] { GatherNone(cols, x, n, order[1..]); }
  }

  // ---- fork-join equals one-node execution ----

  /** Whatever is forked where, and however the replies arrive, the joined table has the same
      rows, with the same multiplicities, as one node exploring alone. */
  lemma {:induction false} RunIsExplore(st: Store, cols: seq<int>, pats: seq<Pattern>, rows: seq<Row>, sched: Sched)
    requires st.servers > 0 && cols != [] && Executable(cols, pats) && Shaped(cols, rows) && Fits(sched, |pats|, st.servers)
    ensures multiset(Run(st, cols, pats, rows, sched)) == multiset(Explore(st, cols, pats, rows))
    decreases |pats|, 1, 0
  {
    match sched
    case Last =>
    case Go(next) =>
      StepShaped(st, cols, pats[0], rows);
      RunIsExplore(st, ColsAfter(cols, pats[0]), pats[1..], StepFrom(st, cols, pats[0], rows), next);
    case Fork(kids, order) =>
      JoinIsGather(st, cols, pats, rows, kids, order);
      GatherAll(cols, pats[0].subj, st.servers, order, rows);
      ExplorePermuted(st, cols, pats, Gather(cols, pats[0].subj, st.servers, order, rows), rows);
  }

  lemma {:induction false} JoinIsGather(st: Store, cols: seq<int>, pats: seq<Pattern>, rows: seq<Row>, kids: seq<Sched>, order: seq<nat>)
    requires st.servers > 0 && cols != [] && pats != [] && Executable(cols, pats) && Shaped(cols, rows)
    requires |kids| == st.servers && forall i :: 0 <= i < |kids| ==> Fits(kids[i], |pats| - 1, st.servers)
    requires forall j :: 0 <= j < |order| ==> order[j] < st.servers
    ensures multiset(Join(st, cols, pats, rows, kids, order))
      == multiset(Explore(st, cols, pats, Gather(cols, pats[0].subj, st.servers, order, rows)))
    decreases |pats|, 0, |order|
  {
    if order == [] {
      ExploreNone(st, cols, pats);
    } else {
      var q := pats[0];
      var part := Share(cols, q.subj, st.servers, order[0], rows);
      StepShaped(st, cols, q, part);
      RunIsExplore(st, ColsAfter(cols, q), pats[1..], StepFrom(st, cols, q, part), kids[order[0]]);
      JoinIsGather(st, cols, pats, rows, kids, order[1..]);
      ExploreConcat(st, cols, pats, part, Gather(cols, q.subj, st.servers, order[1..], rows));
    }
  }

  lemma {:induction false} ExploreNone(st: Store, cols: seq<int>, pats: seq<Pattern>)
    requires cols != [] && Executable(cols, pats)
    ensures Explore(st, cols, pats, []) == []
    decreases |pats|
  {
    if pats != [] { ExploreNone(st, ColsAfter(cols, pats[0]), pats[1..]); }
  }

  // ---- row counts, for queries that only want the number of results ----

  /** What a blind query reports: each sub-query sends back its row count only, and the parent
      adds them up. */
  ghost function Count(st: Store, cols: seq<int>, pats: seq<Pattern>, rows: seq<Row>, sched: Sched): nat
    requires st.servers > 0 && cols != [] && Executable(cols, pats) && Shaped(cols, rows) && Fits(sched, |pats|, st.servers)
    decreases |pats|, 1, 0
  {
    match sched
    case Last => |rows|
    case Go(next) =>
      StepShaped(st, cols, pats[0], rows);
      Count(st, ColsAfter(cols, pats[0]), pats[1..], StepFrom(st, cols, pats[0], rows), next)
    case Fork(kids, order) => CountJoin(st, cols, pats, rows, kids, order)
  }

  ghost function CountJoin(st: Store, cols: seq<int>, pats: seq<Pattern>, rows: seq<Row>, kids: seq<Sched>, order: seq<nat>): nat
    requires st.servers > 0 && cols != [] && pats != [] && Executable(cols, pats) && Shaped(cols, rows)
    requires |kids| == st.servers && forall i :: 0 <= i < |kids| ==> Fits(kids[i], |pats| - 1, st.servers)
    requires forall j :: 0 <= j < |order| ==> order[j] < st.servers
    decreases |pats|, 0, |order|
  {
    if order == [] then 0
    else
      var part := Share(cols, pats[0].subj, st.servers, order[0], rows);
      StepShaped(st, cols, pats[0], part);
      Count(st, ColsAfter(cols, pats[0]), pats[1..], StepFrom(st, cols, pats[0], part), kids[order[0]])
      + CountJoin(st, cols, pats, rows, kids, order[1..])
  }

  lemma {:induction false} CountIsRows(st: Store, cols: seq<int>, pats: seq<Pattern>, rows: seq<Row>, sched: Sched)
    requires st.servers > 0 && cols != [] && Executable(cols, pats) && Shaped(cols, rows) && Fits(sched, |pats|, st.servers)
    ensures Count(st, cols, pats, rows, sched) == |Run(st, cols, pats, rows, sched)|
    decreases |pats|, 1, 0
  {
    match sched
    case Last =>
    case Go(next) =>
      StepShaped(st, cols, pats[0], rows);
      CountIsRows(st, ColsAfter(cols, pats[0]), pats[1..], StepFrom(st, cols, pats[0], rows), next);
    case Fork(kids, order) => CountJoinIsRows(st, cols, pats, rows, kids, order);
  }

  lemma {:induction false} CountJoinIsRows(st: Store, cols: seq<int>, pats: seq<Pattern>, rows: seq<Row>, kids: seq<Sched>, order: seq<nat>)
    requires st.servers > 0 && cols != [] && pats != [] && Executable(cols, pats) && Shaped(cols, rows)
    requires |kids| == st.servers && forall i :: 0 <= i < |kids| ==> Fits(kids[i], |pats| - 1, st.servers)
    requires forall j :: 0 <= j < |order| ==> order[j] < st.servers
    ensures CountJoin(st, cols, pats, rows, kids, order) == |Join(st, cols, pats, rows, kids, order)|
    decreases |pats|, 0, |order|
  {
    if order != [] {
      var part := Share(cols, pats[0].subj, st.servers, order[0], rows);
      StepShaped(st, cols, pats[0], part);
      CountIsRows(st, ColsAfter(cols, pats[0]), pats[1..], StepFrom(st, cols, pats[0], part), kids[order[0]]);
      CountJoinIsRows(st, cols, pats, rows, kids, order[1..]);
    }
  }

  // ---- starting a query ----

  /** The part of an index list that one of mt engine threads takes: equal pieces, the last
      thread also takes the remainder. */
  function Slice(xs: seq<Id>, mt: nat, k: nat): seq<Id>
    requires k < mt
  {
    var length := |xs| / mt;
    SliceBounds(|xs|, mt, k);
    xs[k * length..(k + 1) * length] + if k == mt - 1 then xs[(k + 1) * length..] else []
  }

  lemma SliceBounds(n: nat, mt: nat, k: nat)
    requires k < mt
    ensures k * (n / mt) <= (k + 1) * (n / mt) <= n
  {
    var length := n / mt;
    assert mt * length <= n;
    MulMono(k + 1, mt, length);
    assert (k + 1) * length == k * length + length;
  }

  lemma MulMono(a: nat, b: nat, c: nat)
    requires a <= b
    ensures a * c <= b * c
  {
  }

  /** The slices of the threads 0 .. k, one after the other. */
  ghost function SlicesTo(xs: seq<Id>, mt: nat, k: nat): seq<Id>
    requires k <= mt
  {
    if k == 0 then [] else SlicesTo(xs, mt, k - 1) + Slice(xs, mt, k - 1)
  }

  lemma {:induction false} SlicesPartition(xs: seq<Id>, mt: nat, k: nat)
    requires k <= mt && mt > 0
    ensures k * (|xs| / mt) <= |xs|
    ensures SlicesTo(xs, mt, k) == if k == mt then xs else xs[..k * (|xs| / mt)]
  {
    var length := |xs| / mt;
    if k == 0 {
      assert 0 * length == 0;
    } else {
      SlicesPartition(xs, mt, k - 1);
      SliceBounds(|xs|, mt, k - 1);
      var a, b := (k - 1) * length, k * length;
      assert xs[..a] + xs[a..b] == xs[..b];
      if k == mt { assert xs[..b] + xs[b..] == xs; }
    }
  }
}
