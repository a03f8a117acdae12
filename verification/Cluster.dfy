/**
 * The whole way from triples to answers: servers that have loaded the triples, a planner that
 * uses their statistics, and engines that run the plan.
 */
module Cluster {
  import opened Query
  import opened Plans
  import opened Aggregate
  import opened BulkLoad
  import HT = HashTable
  import GS = GStore
  import PL = Planner
  import ST = Statistics
  import DI = Distributed
  import PR = Progress
  import FP = ForkProtocol
  import CO = Coder

  /** All servers have loaded the triples, in bulk or by inserts. */
  ghost predicate AllLoaded(all: seq<Lists>, ts: seq<Triple>) {
    |all| > 0 && AllGood(ts) && forall i :: 0 <= i < |all| ==> Loaded(all[i], ts, i, |all|)
  }

  function DirOf(code: nat): Dir { if code == GS.DIR_OUT then OUT else IN }

  /** The slots that the statistics are made from are those of the server's table. */
  ghost predicate SlotsOf(slots: seq<ST.Slot>, lists: Lists) {
    && (forall k :: k in lists ==> exists i :: IsSlotOf(slots, i, k, lists))
    && forall i :: 0 <= i < |slots| ==> SlotHasKey(slots, i, lists)
  }

  ghost predicate SlotHasKey(slots: seq<ST.Slot>, i: int, lists: Lists) {
    exists k :: k in lists && IsSlotOf(slots, i, k, lists)
  }

  ghost predicate IsSlotOf(slots: seq<ST.Slot>, i: int, k: HT.Key, lists: Lists)
    requires k in lists
  {
    && 0 <= i < |slots|
    && slots[i].vid == k.vid && slots[i].pid == k.pid && slots[i].dir == DirOf(k.dir)
    && |slots[i].edges| == |lists[k]| && forall j :: 0 <= j < |lists[k]| ==> slots[i].edges[j] == lists[k][j]
  }

  /** The slots made so far. */
  ghost predicate Scans(slots: seq<ST.Slot>, used: seq<HT.Vertex>, lists: Lists) {
    |slots| <= |used| && forall j :: 0 <= j < |slots| ==> used[j].key in lists && IsSlotOf(slots, j, used[j].key, lists)
  }

  lemma ScansNext(slots: seq<ST.Slot>, used: seq<HT.Vertex>, lists: Lists, s: ST.Slot)
    requires Scans(slots, used, lists) && |slots| < |used| && used[|slots|].key in lists
    requires IsSlotOf([s], 0, used[|slots|].key, lists)
    ensures Scans(slots + [s], used, lists)
  {
    var more := slots + [s];
    forall j | 0 <= j < |more|
      ensures used[j].key in lists && IsSlotOf(more, j, used[j].key, lists)
    {
      if j < |slots| { assert IsSlotOf(slots, j, used[j].key, lists) && more[j] == slots[j]; } else { assert more[j] == s; }
    }
  }

  lemma ScansAll(slots: seq<ST.Slot>, used: seq<HT.Vertex>, lists: Lists)
    requires Scans(slots, used, lists) && |slots| == |used|
    requires forall k :: k in lists ==> exists i :: 0 <= i < |used| && used[i].key == k
    ensures SlotsOf(slots, lists)
  {
    hide IsSlotOf;
    forall k | k in lists
      ensures exists i :: IsSlotOf(slots, i, k, lists)
    {
      var i :| 0 <= i < |used| && used[i].key == k;
      assert IsSlotOf(slots, i, used[i].key, lists);
    }
    forall i | 0 <= i < |slots|
      ensures SlotHasKey(slots, i, lists)
    {
      assert IsSlotOf(slots, i, used[i].key, lists);
    }
  }

  /** Scanning a server's buckets gives its slots. */
  method ScanSlots(server: GS.Server) returns (slots: seq<ST.Slot>)
    requires server.Valid()
    ensures SlotsOf(slots, server.lists)
  {
    hide HT.TableOk, HT.Refines, Scans, SlotsOf;
    var used := server.table.UsedSlots();
    slots := [];
    assert Scans(slots, used, server.lists) by { NoSlotsYet(used, server.lists); }
    for i := 0 to |used|
      invariant |slots| == i && Scans(slots, used, server.lists)
    {
      var k := used[i].key;
      var list := server.edges[used[i].ptr.off..used[i].ptr.off + used[i].ptr.size];
      assert list == server.lists[k];
      var s := ST.Slot(k.vid, k.pid, DirOf(k.dir), list);
      ScansNext(slots, used, server.lists, s);
      slots := slots + [s];
    }
    ScansAll(slots, used, server.lists);
  }

  lemma NoSlotsYet(used: seq<HT.Vertex>, lists: Lists)
    ensures Scans([], used, lists)
  {
  }

  ghost function ListsOf(servers: seq<GS.Server>): (all: seq<Lists>)
    reads servers
    ensures |all| == |servers| && forall i :: 0 <= i < |servers| ==> all[i] == servers[i].lists
  {
    seq(|servers|, i requires 0 <= i < |servers| reads servers => servers[i].lists)
  }

  /** From the tables of all servers to the planner's statistics: when the servers have loaded the
      triples, a query that these statistics call empty has no solution. */
  method MakeStatistics(servers: seq<GS.Server>, ghost ts: seq<Triple>) returns (stat: PL.Stat)
    requires forall i :: 0 <= i < |servers| ==> servers[i].Valid()
    ensures AllLoaded(ListsOf(servers), ts) ==> forall query: seq<Pattern>, cols: seq<int>, row: Row ::
      IsQuery(query) && PL.EmptyReason(query, stat) ==> !AllSat(GraphOf(ts), query, cols, row)
  {
    hide SlotsOf, AllLoaded, ST.Gathered, PL.EmptyReason, AllSat, HT.TableOk, HT.Refines, GS.ListsOk;
    var slots: seq<seq<ST.Slot>> := [];
    for i := 0 to |servers|
      invariant |slots| == i && forall j :: 0 <= j < i ==> SlotsOf(slots[j], servers[j].lists)
    {
      var s := ScanSlots(servers[i]);
      slots := slots + [s];
    }
    ghost var orders;
    stat, orders := ST.AllStatistics(slots);
    ghost var all := ListsOf(servers);
    if AllLoaded(all, ts) {
      forall query: seq<Pattern>, cols: seq<int>, row: Row | IsQuery(query) && PL.EmptyReason(query, stat)
        ensures !AllSat(GraphOf(ts), query, cols, row)
      {
        EmptyQueryHasNoSolution(query, stat, slots, orders, all, ts, cols, row);
      }
    }
  }

  lemma LoadedTable(slots: seq<ST.Slot>, all: seq<Lists>, ts: seq<Triple>, i: nat)
    requires AllLoaded(all, ts) && i < |all| && SlotsOf(slots, all[i])
    ensures ST.TableHolds(slots, GraphOf(ts), |all|, i)
  {
    forall v: Id, p: int, d: Dir, x: Id | v % |all| == i && Stored(p, d) && Edge(GraphOf(ts), v, p, d, x)
      ensures ST.HasSlot(slots, v, p, d, x)
    {
      var k := HT.Key(v, p, Code(d));
      LoadedAdj(all, ts, v, p, d);
      assert x in StoreOf(all).adj(v, p, d);
      var lists := all[i];
      assert k in lists && x in lists[k];
      var s :| IsSlotOf(slots, s, k, lists);
      var j :| 0 <= j < |lists[k]| && lists[k][j] == x;
      assert slots[s].edges[j] == x;
    }
  }

  /** If the planner calls a query empty, no assignment satisfies it in the loaded graph. */
  lemma EmptyQueryHasNoSolution(query: seq<Pattern>, stat: PL.Stat, slots: seq<seq<ST.Slot>>, orders: seq<seq<int>>,
                                all: seq<Lists>, ts: seq<Triple>, cols: seq<int>, row: Row)
    requires AllLoaded(all, ts) && |slots| == |all| && forall i :: 0 <= i < |all| ==> SlotsOf(slots[i], all[i])
    requires IsQuery(query) && PL.EmptyReason(query, stat) && ST.Gathered(stat, slots, orders)
    ensures !AllSat(GraphOf(ts), query, cols, row)
  {
    hide SlotsOf, AllLoaded, ST.TableHolds, ST.Gathered, PL.EmptyReason, AllSat;
    forall i | 0 <= i < |slots|
      ensures ST.TableHolds(slots[i], GraphOf(ts), |slots|, i)
    {
      LoadedTable(slots[i], all, ts, i);
    }
    SomeServer(all, ts);
    ST.EmptyIsSound(query, stat, slots, orders, GraphOf(ts), cols, row);
  }

  lemma SomeServer(all: seq<Lists>, ts: seq<Triple>)
    requires AllLoaded(all, ts)
    ensures |all| > 0
  {
  }

  /** Otherwise the plan is run, and in every run of the cluster the answer is exactly the
      query's solutions in the loaded graph. */
  lemma LoadedQueryIsAnswered(c: CO.Cluster, th: DI.Threads, all: seq<Lists>, ts: seq<Triple>, query: seq<Pattern>,
                              states: seq<FP.State<DI.Work>>, steps: seq<FP.Step<DI.Work>>, i: nat, j: nat)
    requires AllLoaded(all, ts) && forall i :: 0 <= i < |all| ==> InListsDistinct(all[i])
    requires IsQuery(query) && query != []
    requires DI.ClusterRun(c, StoreOf(all), GraphOf(ts), th, states, steps) && i < j < |states|
    requires steps[i].Submit? && steps[i].work.Plan? && IsPathFor(query, steps[i].work.plan)
    ensures steps[i].at in states[i].counters
    ensures states[i].counters[steps[i].at] in states[j].answers ==>
      IsSolutionTable(GraphOf(ts), query, FinalCols([], steps[i].work.plan), states[j].answers[states[i].counters[steps[i].at]])
  {
    hide IsSolutionTable, DI.ClusterStepAt, IsPathFor, FP.Init;
    LoadedHolds(all, ts);
    DI.QueryIsAnswered(c, StoreOf(all), GraphOf(ts), th, query, states, steps, i, j);
  }

  /** Once nothing more can be done for the queries submitted, that answer is there. */
  lemma LoadedQueryGetsAnswer(c: CO.Cluster, th: DI.Threads, all: seq<Lists>, ts: seq<Triple>, query: seq<Pattern>,
                              states: seq<FP.State<DI.Work>>, steps: seq<FP.Step<DI.Work>>, i: nat, j: nat)
    requires AllLoaded(all, ts) && forall i :: 0 <= i < |all| ==> InListsDistinct(all[i])
    requires IsQuery(query) && query != []
    requires DI.ClusterRun(c, StoreOf(all), GraphOf(ts), th, states, steps) && i < j < |states|
    requires steps[i].Submit? && steps[i].work.Plan? && IsPathFor(query, steps[i].work.plan)
    requires PR.NumbersLeft(c, states[j])
    requires forall step :: DI.ClusterStep(c, StoreOf(all), GraphOf(ts), th, states[j], step) ==> step.Submit?
    ensures steps[i].at in states[i].counters && states[i].counters[steps[i].at] in states[j].answers
    ensures IsSolutionTable(GraphOf(ts), query, FinalCols([], steps[i].work.plan), states[j].answers[states[i].counters[steps[i].at]])
  {
    hide IsSolutionTable, DI.ClusterStepAt, DI.ClusterStep, IsPathFor, FP.Init, PR.NumbersLeft;
    LoadedHolds(all, ts);
    LoadedQueryIsAnswered(c, th, all, ts, query, states, steps, i, j);
    PR.EveryQueryIsAnswered(c, StoreOf(all), GraphOf(ts), th, states, steps, i, j);
  }

  /** A query is submitted, in any run, only with a path that can be run: never one whose every
      triple has a bad constant. */
  lemma SubmittedCanRun(c: CO.Cluster, th: DI.Threads, all: seq<Lists>, ts: seq<Triple>, query: seq<Pattern>,
                        states: seq<FP.State<DI.Work>>, steps: seq<FP.Step<DI.Work>>, i: nat)
    requires all != [] && IsQuery(query) && query != []
    requires DI.ClusterRun(c, StoreOf(all), GraphOf(ts), th, states, steps) && i < |steps|
    requires steps[i].Submit? && steps[i].work.Plan? && IsPathFor(query, steps[i].work.plan)
    ensures IsPlanFor(query, steps[i].work.plan)
    ensures exists k :: 0 <= k < |query| && !BadConstant(query[k])
  {
    hide FP.Init, DI.EngineStep, BadConstant, StartFails, FP.Apply, FP.CanStep;
    var plan := steps[i].work.plan;
    assert DI.ClusterStepAt(c, StoreOf(all), GraphOf(ts), th, states, steps, i);
    PlanBinds(query, plan);
    var k := FirstTriple(query, plan);
  }

  // ---- when the planner finds a zero count ----

  /** The vertex has an edge of the predicate in the direction, or is of the type. */
  ghost predicate Meets(ts: seq<Triple>, v: Id, a: ST.DirectP) {
    a.p > 0 &&
    if a.dir == OUT then Touches(ts, a.p, GS.DIR_OUT, v) || Triple(v, TYPE_ID, a.p) in ts
    else a.p != TYPE_ID && Touches(ts, a.p, GS.DIR_IN, v)
  }

  /** Server i keeps an index list under the predicate or type and the direction. */
  ghost predicate Keeps(ts: seq<Triple>, i: nat, n: nat, a: ST.DirectP)
    requires n > 0
  {
    a.p > 0 && exists v: nat :: Listed(ts, i, n, a, v)
  }

  ghost predicate Listed(ts: seq<Triple>, i: nat, n: nat, a: ST.DirectP, v: nat)
    requires n > 0 && a.p > 0
  {
    v % n == i && Qualifies(ts, a.p, Code(a.dir), v)
  }

  lemma {:induction false} FromVertexPreds(slots: seq<ST.Slot>, v: int, a: ST.DirectP) returns (i: nat)
    requires a in ST.VertexPreds(slots, v)
    ensures i < |slots| && slots[i].vid == v && a in ST.SlotPreds(slots[i])
  {
    hide ST.SlotPreds;
    var n := |slots| - 1;
    if slots[n].vid == v && a in ST.SlotPreds(slots[n]) { i := n; } else { i := FromVertexPreds(slots[..n], v, a); }
  }

  /** What one slot says, in terms of its key. */
  lemma SlotSays(slots: seq<ST.Slot>, i: nat, k: HT.Key, lists: Lists, a: ST.DirectP)
    requires k in lists && IsSlotOf(slots, i, k, lists) && k.pid > 0 && k.dir <= 1
    ensures a in ST.SlotPreds(slots[i]) <==>
      a == ST.DirectP(DirOf(k.dir), k.pid) || (k.dir == GS.DIR_OUT && k.pid == TYPE_ID && a.dir == OUT && a.p >= 0 && a.p in lists[k])
  {
    var s := slots[i];
    if a.dir == OUT && a.p >= 0 && a.p in lists[k] {
      var j :| 0 <= j < |lists[k]| && lists[k][j] == a.p;
      assert s.edges[j] == a.p;
      assert ST.TypePreds(s.edges)[j] == a;
    }
    if a in ST.TypePreds(s.edges) {
      var j :| 0 <= j < |s.edges| && ST.TypePreds(s.edges)[j] == a;
      assert lists[k][j] == a.p;
    }
  }

  /** What the statistics of a server know about a vertex is what the triples say. */
  lemma VertexSays(slots: seq<ST.Slot>, lists: Lists, ts: seq<Triple>, i: nat, n: nat, v: Id, a: ST.DirectP)
    requires n > 0 && AllGood(ts) && Loaded(lists, ts, i, n) && SlotsOf(slots, lists) && v > 0
    ensures a in ST.VertexPreds(slots, v) <==> v % n == i && Meets(ts, v, a)
  {
    hide ST.VertexPreds, ST.SlotPreds, IndexExact;
    if a in ST.VertexPreds(slots, v) {
      var s := FromVertexPreds(slots, v, a);
      assert SlotHasKey(slots, s, lists);
      var k :| k in lists && IsSlotOf(slots, s, k, lists);
      SlotSays(slots, s, k, lists, a);
      KeyMeets(lists, ts, i, n, k, a);
    }
    if v % n == i && Meets(ts, v, a) {
      var k := MeetsKey(lists, ts, i, n, v, a);
      var s :| IsSlotOf(slots, s, k, lists);
      SlotSays(slots, s, k, lists, a);
      ST.InVertexPreds(slots, s, a);
    }
  }

  lemma KeyMeets(lists: Lists, ts: seq<Triple>, i: nat, n: nat, k: HT.Key, a: ST.DirectP)
    requires n > 0 && AllGood(ts) && Loaded(lists, ts, i, n) && k in lists && k.vid > 0
    requires a == ST.DirectP(DirOf(k.dir), k.pid) || (k.dir == GS.DIR_OUT && k.pid == TYPE_ID && a.dir == OUT && a.p >= 0 && a.p in lists[k])
    ensures k.vid % n == i && Meets(ts, k.vid, a)
  {
    var x: nat :| ArcIn(ts, k, x);
    if a == ST.DirectP(DirOf(k.dir), k.pid) {
      assert Touches(ts, k.pid, k.dir, k.vid);
      if k.dir == GS.DIR_IN { assert GoodTriple(Triple(x, k.pid, k.vid)); }
    } else {
      assert ExactList(lists[k], ts, k) && ArcIn(ts, k, a.p);
      assert GoodTriple(Triple(k.vid, TYPE_ID, a.p));
    }
  }

  lemma MeetsKey(lists: Lists, ts: seq<Triple>, i: nat, n: nat, v: Id, a: ST.DirectP) returns (k: HT.Key)
    requires n > 0 && AllGood(ts) && Loaded(lists, ts, i, n) && v > 0 && v % n == i && Meets(ts, v, a)
    ensures k in lists && k.vid == v && k.pid > 0 && k.dir <= 1
    ensures a == ST.DirectP(DirOf(k.dir), k.pid) || (k.dir == GS.DIR_OUT && k.pid == TYPE_ID && a.dir == OUT && a.p in lists[k])
  {
    if a.dir == OUT && !Touches(ts, a.p, GS.DIR_OUT, v) {
      k := TypeKey(v);
      assert ArcIn(ts, k, a.p);
      assert Wanted(ts, k) && ExactList(lists[k], ts, k);
    } else {
      k := HT.Key(v, a.p, Code(a.dir));
      var x: nat :| ArcIn(ts, k, x);
      if a.dir == IN { assert GoodTriple(Triple(x, a.p, v)); }
      assert Wanted(ts, k);
    }
  }

  /** Under id 0 they find the index keys. */
  lemma IndexSays(slots: seq<ST.Slot>, lists: Lists, ts: seq<Triple>, i: nat, n: nat, a: ST.DirectP)
    requires n > 0 && AllGood(ts) && Loaded(lists, ts, i, n) && SlotsOf(slots, lists)
    ensures a in ST.VertexPreds(slots, 0) <==> Keeps(ts, i, n, a)
  {
    hide ST.VertexPreds, ST.SlotPreds, ExactList, Wanted, Qualifies;
    if a in ST.VertexPreds(slots, 0) {
      var s := FromVertexPreds(slots, 0, a);
      assert SlotHasKey(slots, s, lists);
      var k :| k in lists && IsSlotOf(slots, s, k, lists);
      SlotSays(slots, s, k, lists, a);
      NoTypeIndex(lists, ts, i, n, k);
      assert k == IndexKey(k.pid, k.dir) && IndexExact(ListAt(lists, k), ts, k.pid, k.dir, i, n);
      assert lists[k][0] in lists[k];
      assert Listed(ts, i, n, a, lists[k][0]);
    }
    if Keeps(ts, i, n, a) {
      var v: nat :| Listed(ts, i, n, a, v);
      var k := IndexKey(a.p, Code(a.dir));
      assert IndexExact(ListAt(lists, k), ts, a.p, Code(a.dir), i, n);
      var s :| IsSlotOf(slots, s, k, lists);
      SlotSays(slots, s, k, lists, a);
      ST.InVertexPreds(slots, s, a);
    }
  }

  lemma NoTypeIndex(lists: Lists, ts: seq<Triple>, i: nat, n: nat, k: HT.Key)
    requires n > 0 && AllGood(ts) && Loaded(lists, ts, i, n) && k in lists && k.vid == 0
    ensures k.pid != TYPE_ID
  {
    var v := lists[k][0];
    assert v in lists[k];
    assert k == IndexKey(k.pid, k.dir) && IndexExact(ListAt(lists, k), ts, k.pid, k.dir, i, n);
  }

  /** The count that the planner looks up for two constraints is zero exactly if no vertex meets
      both and, because index lists are counted too, no server keeps index lists for both. */
  lemma ZeroCountIff(stat: PL.Stat, slots: seq<seq<ST.Slot>>, orders: seq<seq<int>>, all: seq<Lists>, ts: seq<Triple>,
                     a: ST.DirectP, b: ST.DirectP)
    requires AllLoaded(all, ts) && |slots| == |all| && forall i :: 0 <= i < |all| ==> SlotsOf(slots[i], all[i])
    requires ST.Gathered(stat, slots, orders) && a.p != b.p
    ensures PL.Correlation(stat, a.p, a.dir, b.p, b.dir) == 0 <==>
      && (forall v: Id :: v > 0 ==> !(Meets(ts, v, a) && Meets(ts, v, b)))
      && (forall i: nat :: i < |all| ==> !(Keeps(ts, i, |all|, a) && Keeps(ts, i, |all|, b)))
  {
    hide ST.VertexPreds, ST.Gathered, PL.Correlation, SlotsOf, Loaded, Meets, Keeps, AllGood;
    ST.ZeroIffNone(stat, slots, orders, a.p, a.dir, b.p, b.dir);
    assert a == ST.DirectP(a.dir, a.p) && b == ST.DirectP(b.dir, b.p);
    if ST.HaveBoth(slots, a, b) {
      var i, v :| 0 <= i < |slots| && a in ST.VertexPreds(slots[i], v) && b in ST.VertexPreds(slots[i], v);
      IdIsNatural(slots[i], all[i], v, a);
      if v > 0 {
        VertexSays(slots[i], all[i], ts, i, |all|, v, a);
        VertexSays(slots[i], all[i], ts, i, |all|, v, b);
      } else {
        IndexSays(slots[i], all[i], ts, i, |all|, a);
        IndexSays(slots[i], all[i], ts, i, |all|, b);
      }
    }
    forall v: Id | v > 0 && Meets(ts, v, a) && Meets(ts, v, b)
      ensures ST.HaveBoth(slots, a, b)
    {
      var i := v % |all|;
      VertexSays(slots[i], all[i], ts, i, |all|, v, a);
      VertexSays(slots[i], all[i], ts, i, |all|, v, b);
    }
    forall i: nat | i < |all| && Keeps(ts, i, |all|, a) && Keeps(ts, i, |all|, b)
      ensures ST.HaveBoth(slots, a, b)
    {
      IndexSays(slots[i], all[i], ts, i, |all|, a);
      IndexSays(slots[i], all[i], ts, i, |all|, b);
    }
  }

  lemma IdIsNatural(slots: seq<ST.Slot>, lists: Lists, v: int, a: ST.DirectP)
    requires SlotsOf(slots, lists) && a in ST.VertexPreds(slots, v)
    ensures v >= 0
  {
    var s := FromVertexPreds(slots, v, a);
    assert SlotHasKey(slots, s, lists);
  }
}
