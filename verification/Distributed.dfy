/**
 * Query execution over a cluster: the fork-join protocol with the engine's own ways of
 * splitting a query.  Every answer that reaches a proxy is the solution set of its plan.
 */
module Distributed {
  import opened Query
  import opened ForkJoin
  import opened ParallelStart
  import opened Plans
  import opened Seqs
  import opened Coder
  import FP = ForkProtocol
  import EN = Engine

  /** What a query in flight still has to do: a whole plan, one copy of a plan that starts from
      an index, or the rest of a plan on the rows found so far. */
  datatype Work =
    | Plan(plan: seq<Pattern>)
    | Copy(plan: seq<Pattern>, mt: nat, server: nat, slice: nat)
    | Rest(cols: seq<int>, pats: seq<Pattern>, rows: seq<Row>)

  /** A plan that can be run: what a proxy sends, having asked whether it starts from an index. */
  ghost predicate IsPlan(plan: seq<Pattern>) { plan != [] && Executable([], plan) }

  /** A plan that starts from an index uses its id for what it is. */
  ghost predicate StartsRight(g: set<Triple>, plan: seq<Pattern>) {
    plan != [] && IsIndexPattern(plan[0]) ==> KindOk(g, plan[0])
  }

  ghost predicate IsRest(w: Work) {
    w.Rest? && w.cols != [] && Executable(w.cols, w.pats) && Shaped(w.cols, w.rows)
  }

  /** One copy on each server. */
  ghost function Servers(n: nat): (order: seq<(nat, nat)>)
    ensures |order| == n && forall i :: 0 <= i < n ==> order[i] == (i, 0)
  {
    seq(n, i => (i, 0))
  }

  ghost function Value(st: Store, w: Work): multiset<Row> {
    match w
    case Plan(plan) =>
      if !IsPlan(plan) then multiset{}
      else
        FirstPattern(plan);
        var q, rest := plan[0], plan[1..];
        if IsIndexPattern(q) then
          multiset(Explore(st, [q.obj], rest, Pieces(st, q, 1, [0], Servers(st.servers))))
        else
          multiset(Explore(st, [q.obj], rest, StartRows(st.adj(q.subj, q.pred, q.dir))))
    case Copy(plan, mt, server, slice) =>
      if !IsPlan(plan) || slice >= mt then multiset{}
      else
        FirstPattern(plan);
        multiset(Explore(st, [plan[0].obj], plan[1..], Piece(st, plan[0], mt, server, slice)))
    case Rest(cols, pats, rows) => if IsRest(w) then multiset(Explore(st, cols, pats, rows)) else multiset{}
  }

  // ---- the engine's splits add up ----

  /** Rows split over the servers. */
  ghost predicate SharesOf(st: Store, w: Work, parts: seq<FP.Part<Work>>)
    requires IsRest(w) && w.pats != [] && st.servers > 0
  {
    && |parts| == st.servers
    && forall i :: 0 <= i < |parts| ==>
         parts[i].work == Rest(w.cols, w.pats, Share(w.cols, w.pats[0].subj, st.servers, i, w.rows))
  }

  function UpTo(n: nat): (order: seq<nat>)
    ensures |order| == n && forall i :: 0 <= i < n ==> order[i] == i
  {
    seq(n, i => i)
  }

  lemma FirstBound(w: Work)
    requires IsRest(w) && w.pats != []
    ensures w.pats[0].subj in w.cols && Supported(w.cols, w.pats[0])
  {
  }

  lemma SharesAddUp(st: Store, w: Work, parts: seq<FP.Part<Work>>)
    requires IsRest(w) && w.pats != [] && st.servers > 0 && SharesOf(st, w, parts)
    ensures FP.Total(x => Value(st, x), parts) == Value(st, w)
  {
    hide Explore, Executable;
    FirstBound(w);
    var order := UpTo(st.servers);
    assert IsOrder(order, st.servers) by {
      forall i | 0 <= i < st.servers
        ensures i in order
      {
        assert order[i] == i;
      }
    }
    GatherAll(w.cols, w.pats[0].subj, st.servers, order, w.rows);
    ExplorePermuted(st, w.cols, w.pats, Gather(w.cols, w.pats[0].subj, st.servers, order, w.rows), w.rows);
    SharesTotal(st, w, parts, st.servers);
    assert parts[..|parts|] == parts && order[..|order|] == order;
  }

  lemma {:induction false} GatherSnoc(cols: seq<int>, x: int, n: nat, order: seq<nat>, i: nat, rows: seq<Row>)
    requires n > 0 && Bound(cols, x) && Shaped(cols, rows)
    ensures Gather(cols, x, n, order + [i], rows) == Gather(cols, x, n, order, rows) + Share(cols, x, n, i, rows)
    decreases |order|
  {
    hide Share;
    if order == [] {
      assert order + [i] == [i] && [i][1..] == [];
    } else {
      assert (order + [i])[1..] == order[1..] + [i];
      GatherSnoc(cols, x, n, order[1..], i, rows);
    }
  }

  lemma {:induction false} SharesTotal(st: Store, w: Work, parts: seq<FP.Part<Work>>, m: nat)
    requires IsRest(w) && w.pats != [] && st.servers > 0 && SharesOf(st, w, parts) && m <= st.servers
    ensures FP.Total(x => Value(st, x), parts[..m])
      == multiset(Explore(st, w.cols, w.pats, Gather(w.cols, w.pats[0].subj, st.servers, UpTo(st.servers)[..m], w.rows)))
  {
    hide Explore, Executable, Share;
    FirstBound(w);
    var order := UpTo(st.servers);
    if m == 0 {
      assert parts[..0] == [] && order[..0] == [];
      ExploreNone(st, w.cols, w.pats);
    } else {
      SharesTotal(st, w, parts, m - 1);
      assert parts[..m][..m - 1] == parts[..m - 1] && order[..m] == order[..m - 1] + [m - 1];
      GatherSnoc(w.cols, w.pats[0].subj, st.servers, order[..m - 1], m - 1, w.rows);
      var part := Share(w.cols, w.pats[0].subj, st.servers, m - 1, w.rows);
      ExploreConcat(st, w.cols, w.pats, Gather(w.cols, w.pats[0].subj, st.servers, order[..m - 1], w.rows), part);
      assert Value(st, parts[m - 1].work) == multiset(Explore(st, w.cols, w.pats, part));
    }
  }

  /** Copies of an index plan: the parts of the index lists that `slices` and `order` give. */
  ghost predicate CopiesOf(st: Store, plan: seq<Pattern>, mt: nat, slices: seq<nat>, order: seq<(nat, nat)>, parts: seq<FP.Part<Work>>) {
    && |slices| == mt && (forall j :: 0 <= j < mt ==> slices[j] < mt)
    && InOrder(order, st.servers, mt) && AllReplies(order, st.servers, mt)
    && |parts| == |order| == st.servers * mt
    && forall t :: 0 <= t < |parts| ==> parts[t].work == Copy(plan, mt, order[t].0, slices[order[t].1])
  }

  lemma {:induction false} PiecesSnoc(st: Store, q: Pattern, mt: nat, slices: seq<nat>, order: seq<(nat, nat)>, e: (nat, nat))
    requires |slices| == mt && (forall j :: 0 <= j < mt ==> slices[j] < mt)
    requires InOrder(order, st.servers, mt) && e.0 < st.servers && e.1 < mt
    ensures InOrder(order + [e], st.servers, mt)
    ensures Pieces(st, q, mt, slices, order + [e]) == Pieces(st, q, mt, slices, order) + Piece(st, q, mt, e.0, slices[e.1])
    decreases |order|
  {
    hide Piece;
    if order == [] {
      assert order + [e] == [e] && [e][1..] == [];
    } else {
      assert (order + [e])[1..] == order[1..] + [e];
      PiecesSnoc(st, q, mt, slices, order[1..], e);
    }
  }

  lemma {:induction false} CopiesTotal(st: Store, plan: seq<Pattern>, mt: nat, slices: seq<nat>, order: seq<(nat, nat)>,
                                       parts: seq<FP.Part<Work>>, m: nat)
    requires IsPlan(plan) && st.servers > 0 && CopiesOf(st, plan, mt, slices, order, parts) && m <= |order|
    ensures Executable([plan[0].obj], plan[1..]) && InOrder(order[..m], st.servers, mt)
    ensures FP.Total(x => Value(st, x), parts[..m])
      == multiset(Explore(st, [plan[0].obj], plan[1..], Pieces(st, plan[0], mt, slices, order[..m])))
  {
    hide Explore, Executable, Piece;
    FirstPattern(plan);
    var q, cols, rest := plan[0], [plan[0].obj], plan[1..];
    if m == 0 {
      assert parts[..0] == [] && order[..0] == [];
      ExploreNone(st, cols, rest);
    } else {
      CopiesTotal(st, plan, mt, slices, order, parts, m - 1);
      var e := order[m - 1];
      assert parts[..m][..m - 1] == parts[..m - 1] && order[..m] == order[..m - 1] + [e];
      PiecesSnoc(st, q, mt, slices, order[..m - 1], e);
      ExploreConcat(st, cols, rest, Pieces(st, q, mt, slices, order[..m - 1]), Piece(st, q, mt, e.0, slices[e.1]));
      assert Value(st, parts[m - 1].work) == multiset(Explore(st, cols, rest, Piece(st, q, mt, e.0, slices[e.1])));
    }
  }

  lemma SameMembers(a: seq<Row>, b: seq<Row>)
    requires Distinct(a) && Distinct(b) && forall r :: r in a <==> r in b
    ensures multiset(a) == multiset(b)
  {
    DistinctOnce(a);
    DistinctOnce(b);
    forall r
      ensures multiset(a)[r] == multiset(b)[r]
    {
      assert r in multiset(a) <==> r in a;
      assert r in multiset(b) <==> r in b;
    }
  }

  lemma CopiesAddUp(st: Store, g: set<Triple>, plan: seq<Pattern>, mt: nat, slices: seq<nat>, order: seq<(nat, nat)>, parts: seq<FP.Part<Work>>)
    requires Holds(st, g) && IsPlan(plan) && IsIndexPattern(plan[0]) && KindOk(g, plan[0]) && mt > 0
    requires CopiesOf(st, plan, mt, slices, order, parts) && Distinct(slices)
    ensures FP.Total(x => Value(st, x), parts) == Value(st, Plan(plan))
  {
    hide Explore, Executable, Pieces;
    FirstPattern(plan);
    var q := plan[0];
    CopiesTotal(st, plan, mt, slices, order, parts, |order|);
    assert parts[..|parts|] == parts && order[..|order|] == order;
    OnePerServer(st.servers);
    PiecesSolve(st, g, q, mt, slices, order);
    PiecesSolve(st, g, q, 1, [0], Servers(st.servers));
    var a, b := Pieces(st, q, mt, slices, order), Pieces(st, q, 1, [0], Servers(st.servers));
    SameMembers(a, b);
    ExplorePermuted(st, [q.obj], plan[1..], a, b);
  }

  lemma OnePerServer(n: nat)
    ensures InOrder(Servers(n), n, 1) && AllReplies(Servers(n), n, 1)
  {
    forall i: nat, j: nat | i < n && j < 1
      ensures (i, j) in Servers(n)
    {
      assert Servers(n)[i] == (i, 0);
    }
  }

  // ---- what the engine does in place ----

  /** The next pattern, run in place. */
  ghost function Advance(st: Store, w: Work): Work {
    match w
    case Plan(plan) =>
      if !IsPlan(plan) then w
      else if !IsIndexPattern(plan[0]) then
        FirstPattern(plan);
        Rest([plan[0].obj], plan[1..], StartRows(st.adj(plan[0].subj, plan[0].pred, plan[0].dir)))
      else if st.servers == 1 then Rest([plan[0].obj], plan[1..], Piece(st, plan[0], 1, 0, 0))
      else w
    case Copy(plan, mt, server, slice) =>
      if !IsPlan(plan) || slice >= mt then w
      else Rest([plan[0].obj], plan[1..], Piece(st, plan[0], mt, server, slice))
    case Rest(cols, pats, rows) =>
      if !IsRest(w) || pats == [] then w
      else Rest(ColsAfter(cols, pats[0]), pats[1..], StepFrom(st, cols, pats[0], rows))
  }

  lemma AdvanceValue(st: Store, w: Work)
    ensures Value(st, Advance(st, w)) == Value(st, w)
  {
    match w
    case Plan(plan) =>
      if IsPlan(plan) {
        FirstPattern(plan);
        if st.servers == 1 && IsIndexPattern(plan[0]) {
          assert Servers(1) == [(0, 0)] && [(0, 0)][1..] == [];
          assert Pieces(st, plan[0], 1, [0], Servers(1)) == Piece(st, plan[0], 1, 0, 0);
        }
      }
    case Copy(plan, _, _, _) => if IsPlan(plan) { FirstPattern(plan); }
    case Rest(cols, pats, rows) => if IsRest(w) && pats != [] { StepShaped(st, cols, pats[0], rows); }
  }

  ghost function Advanced(st: Store, w: Work, n: nat): Work
    decreases n
  {
    if n == 0 then w else Advanced(st, Advance(st, w), n - 1)
  }

  lemma {:induction false} AdvancedValue(st: Store, w: Work, n: nat)
    ensures Value(st, Advanced(st, w, n)) == Value(st, w)
    decreases n
  {
    if n > 0 {
      AdvanceValue(st, w);
      AdvancedValue(st, Advance(st, w), n - 1);
    }
  }

  lemma {:induction false} AdvancedRest(st: Store, w: Work, n: nat)
    requires IsRest(w) && n <= |w.pats|
    ensures Executable(w.cols, w.pats[..n])
    ensures Advanced(st, w, n) == Rest(FinalCols(w.cols, w.pats[..n]), w.pats[n..], Explore(st, w.cols, w.pats[..n], w.rows))
    decreases n
  {
    hide StepFrom, Supported;
    if n == 0 {
      assert w.pats[..0] == [] && w.pats[0..] == w.pats;
    } else {
      var q, rest := w.pats[0], w.pats[1..];
      StepShaped(st, w.cols, q, w.rows);
      AfterNonEmpty(w.cols, q);
      AdvancedRest(st, Advance(st, w), n - 1);
      assert w.pats[..n][1..] == rest[..n - 1] && rest[n - 1..] == w.pats[n..] && w.pats[..n][0] == q;
    }
  }

  /** What ExecutePatterns does to a request with rows is a number of patterns run in place. */
  lemma RequestAdvances(st: Store, w: Work, k: nat, cols: seq<int>, rows: seq<Row>)
    requires IsRest(w) && k <= |w.pats| && EN.Ran(st, w.cols, w.rows, w.pats[..k], cols, rows)
    ensures Advanced(st, w, k) == Rest(cols, w.pats[k..], rows)
  {
    hide Explore, Executable, FinalCols, Advanced;
    AdvancedRest(st, w, k);
  }

  /** So is what it does to a request that has just begun: a copy of an index plan on its own
      server and thread, or a plan from a constant. */
  lemma NewRequestAdvances(st: Store, sid: nat, tid: nat, mt: nat, w: Work, k: nat, cols: seq<int>, rows: seq<Row>)
    requires mt > 0 && (w.Plan? || w.Copy?) && IsPlan(w.plan) && 1 <= k <= |w.plan| && w.plan[0].subj >= 0
    requires if IsIndexPattern(w.plan[0]) then w == Copy(w.plan, mt, sid, tid % mt) else w.Plan?
    requires EN.Ran(st, [w.plan[0].obj], EN.FirstRows(st, sid, w.plan[0], tid, mt), w.plan[1..k], cols, rows)
    ensures Advanced(st, w, k) == Rest(cols, w.plan[k..], rows)
  {
    hide Explore, Executable, FinalCols, Advance, EN.FirstRows, IsPlan;
    var w1 := FirstAdvance(st, sid, tid, mt, w);
    assert w.plan[1..][..k - 1] == w.plan[1..k] && w.plan[1..][k - 1..] == w.plan[k..];
    RequestAdvances(st, w1, k - 1, cols, rows);
  }

  lemma FirstAdvance(st: Store, sid: nat, tid: nat, mt: nat, w: Work) returns (w1: Work)
    requires mt > 0 && (w.Plan? || w.Copy?) && IsPlan(w.plan) && w.plan[0].subj >= 0
    requires if IsIndexPattern(w.plan[0]) then w == Copy(w.plan, mt, sid, tid % mt) else w.Plan?
    ensures w1 == Rest([w.plan[0].obj], w.plan[1..], EN.FirstRows(st, sid, w.plan[0], tid, mt))
    ensures Advance(st, w) == w1 && w1.cols != [] && Executable(w1.cols, w1.pats)
  {
    hide Executable;
    FirstPattern(w.plan);
    w1 := Advance(st, w);
  }

  // ---- whole runs ----

  /** The engines' threads, as far as the split of an index plan depends on them. */
  datatype Threads = Threads(proxies: nat, engines: nat)

  /** An index plan is copied: the t-th copy goes to server order[t].0, and takes the slice that
      the number of the thread it is sent to gives. */
  ghost predicate SplitsPlan(st: Store, th: Threads, w: Work, at: FP.Place, mt: nat, slices: seq<nat>, order: seq<(nat, nat)>, parts: seq<FP.Part<Work>>) {
    && w.Plan? && IsPlan(w.plan) && IsIndexPattern(w.plan[0])
    && th.proxies <= at.tid && 0 < mt <= th.engines
    && (NoWrap(at.tid, th.proxies, th.engines, mt) || th.engines % mt == 0)
    && CopiesOf(st, w.plan, mt, slices, order, parts)
    && (forall t :: 0 <= t < |parts| ==> parts[t].to.sid == order[t].0 && th.proxies <= parts[t].to.tid)
    && forall j :: 0 <= j < mt ==> slices[j] == SliceNo(at.tid, j, th.proxies, th.engines, mt)
  }

  /** After n patterns in place the rows are split; the i-th part goes to server i, where some
      engine takes it (its own, or a neighbour with nothing to do). */
  ghost predicate SplitsRows(st: Store, th: Threads, w: Work, n: nat, parts: seq<FP.Part<Work>>)
    requires st.servers > 0
  {
    var w' := Advanced(st, w, n);
    && n > 0 && IsRest(w') && w'.pats != [] && SharesOf(st, w', parts)
    && forall i :: 0 <= i < |parts| ==> parts[i].to.sid == i && th.proxies <= parts[i].to.tid
  }

  ghost predicate Finishes(st: Store, w: Work, n: nat, rows: seq<Row>) {
    var w' := Advanced(st, w, n);
    n > 0 && IsRest(w') && w'.pats == [] && w'.rows == rows
  }

  /** What the engines do: run one or more patterns in place, then finish or split the rows over
      the servers; or copy an index plan to all servers and mt threads. */
  ghost predicate EngineStep(st: Store, th: Threads, s: FP.State<Work>, step: FP.Step<Work>)
    requires st.servers > 0
  {
    match step
    case Finish(k, rows) =>
      k in s.tasks && s.tasks[k].Sent? && exists n: nat :: Finishes(st, s.tasks[k].work, n, rows)
    case Split(k, parts) =>
      k in s.tasks && s.tasks[k].Sent? &&
      ((exists n: nat :: SplitsRows(st, th, s.tasks[k].work, n, parts))
       || exists mt: nat, slices, order :: SplitsPlan(st, th, s.tasks[k].work, s.tasks[k].to, mt, slices, order, parts))
    case _ => true
  }

  /** Each of these produces, or passes on, exactly the rows that the query stands for. */
  lemma EngineStepRight(st: Store, g: set<Triple>, th: Threads, s: FP.State<Work>, step: FP.Step<Work>)
    requires Holds(st, g) && EngineStep(st, th, s, step)
    requires step.Split? && s.tasks[step.k].work.Plan? ==> StartsRight(g, s.tasks[step.k].work.plan)
    ensures step.Finish? ==> multiset(step.rows) == Value(st, s.tasks[step.k].work)
    ensures step.Split? ==> FP.Total(x => Value(st, x), step.parts) == Value(st, s.tasks[step.k].work)
  {
    hide Explore, Executable, Advanced;
    match step
    case Finish(k, rows) =>
      var w := s.tasks[k].work;
      var n: nat :| Finishes(st, w, n, rows);
      AdvancedValue(st, w, n);
      RestDone(st, Advanced(st, w, n));
    case Split(k, parts) =>
      var w := s.tasks[k].work;
      if n: nat :| SplitsRows(st, th, w, n, parts) {
        AdvancedValue(st, w, n);
        SharesAddUp(st, Advanced(st, w, n), parts);
      } else {
        var mt: nat, slices, order :| SplitsPlan(st, th, w, s.tasks[k].to, mt, slices, order, parts);
        AllSlicesIff(s.tasks[k].to.tid, th.proxies, th.engines, mt);
        CopiesAddUp(st, g, w.plan, mt, slices, order, parts);
      }
    case _ =>
  }

  lemma RestDone(st: Store, w: Work)
    requires IsRest(w) && w.pats == []
    ensures Value(st, w) == multiset(w.rows)
  {
  }

  lemma PlanSolved(st: Store, g: set<Triple>, plan: seq<Pattern>, rows: seq<Row>)
    requires Holds(st, g) && IsPlan(plan) && StartsRight(g, plan) && multiset(rows) == Value(st, Plan(plan))
    ensures IsSolutionTable(g, plan, FinalCols([], plan), rows)
  {
    hide Explore, Executable, FinalCols, Pieces;
    FirstPattern(plan);
    var q, cols, rest := plan[0], [plan[0].obj], plan[1..];
    var first := if IsIndexPattern(q) then Pieces(st, q, 1, [0], Servers(st.servers)) else StartRows(st.adj(q.subj, q.pred, q.dir));
    OnePerServer(st.servers);
    if IsIndexPattern(q) { PiecesSolve(st, g, q, 1, [0], Servers(st.servers)); } else { ConstSolve(st, g, q); }
    ExploreSolutions(st, g, [q], cols, rest, first);
    SameRowsSolve(g, plan, FinalCols([], plan), Explore(st, cols, rest, first), rows);
  }

  // ---- runs of the cluster ----

  /** A step of the cluster: proxies submit plans, engines do what engines do. */
  ghost predicate ClusterStep(c: Cluster, st: Store, g: set<Triple>, th: Threads, s: FP.State<Work>, step: FP.Step<Work>)
    requires st.servers > 0
  {
    && FP.CanStep(c, s, step) && EngineStep(st, th, s, step)
    && (step.Submit? ==>
          step.work.Plan? && IsPlan(step.work.plan) && StartsRight(g, step.work.plan) && th.proxies <= step.to.tid)
  }

  /** The places are the proxies and engines of the store's servers. */
  predicate Staffed(c: Cluster, st: Store, th: Threads) {
    c.servers == st.servers && c.threads == th.proxies + th.engines && th.engines > 0
  }

  ghost predicate ClusterRun(c: Cluster, st: Store, g: set<Triple>, th: Threads, states: seq<FP.State<Work>>, steps: seq<FP.Step<Work>>)
    requires st.servers > 0
  {
    && |states| == |steps| + 1 && FP.Init(c, states[0]) && Staffed(c, st, th)
    && forall i :: 0 <= i < |steps| ==> ClusterStepAt(c, st, g, th, states, steps, i)
  }

  ghost predicate ClusterStepAt(c: Cluster, st: Store, g: set<Triple>, th: Threads, states: seq<FP.State<Work>>, steps: seq<FP.Step<Work>>, i: nat)
    requires st.servers > 0 && |states| == |steps| + 1 && i < |steps|
  {
    && Sized(c) && ClusterStep(c, st, g, th, states[i], steps[i])
    && states[i + 1] == FP.Apply(c, x => Value(st, x), states[i], steps[i])
  }

  /** Plans under way start right. */
  ghost predicate PlansRight(g: set<Triple>, s: FP.State<Work>) {
    forall k :: k in s.tasks && s.tasks[k].Sent? && s.tasks[k].work.Plan? ==> StartsRight(g, s.tasks[k].work.plan)
  }

  lemma PlansStayRight(c: Cluster, st: Store, g: set<Triple>, th: Threads, s: FP.State<Work>, step: FP.Step<Work>)
    requires Holds(st, g) && Sized(c) && ClusterStep(c, st, g, th, s, step) && PlansRight(g, s)
    requires forall j: nat :: j in s.tasks ==> j < s.next
    ensures PlansRight(g, FP.Apply(c, x => Value(st, x), s, step))
  {
    hide StartsRight, IsPlan, Value, EngineStep, FP.Apply, FP.CanStep;
    var s' := FP.Apply(c, x => Value(st, x), s, step);
    if step.Split? { PartsNoPlans(st, th, s, step.k, step.parts); }
    forall k | k in s'.tasks && s'.tasks[k].Sent? && s'.tasks[k].work.Plan?
      ensures StartsRight(g, s'.tasks[k].work.plan)
    {
      FP.SentAfter(c, x => Value(st, x), s, step, k);
    }
  }

  /** What engines split into are copies and rests, not plans. */
  lemma PartsNoPlans(st: Store, th: Threads, s: FP.State<Work>, k: nat, parts: seq<FP.Part<Work>>)
    requires st.servers > 0 && EngineStep(st, th, s, FP.Split(k, parts))
    ensures forall i :: 0 <= i < |parts| ==> !parts[i].work.Plan?
  {
    hide Advanced, IsPlan;
    var w := s.tasks[k].work;
    if n: nat :| SplitsRows(st, th, w, n, parts) {
      assert forall i :: 0 <= i < |parts| ==> parts[i].work.Rest?;
    } else {
      var mt: nat, slices, order :| SplitsPlan(st, th, w, s.tasks[k].to, mt, slices, order, parts);
      assert forall i :: 0 <= i < |parts| ==> parts[i].work.Copy?;
    }
  }

  /** A run of the cluster is a run of the protocol: nothing that engines do changes the rows a
      query stands for. */
  lemma {:induction false} ClusterRunRight(c: Cluster, st: Store, g: set<Triple>, th: Threads,
                                           states: seq<FP.State<Work>>, steps: seq<FP.Step<Work>>, i: nat)
    requires Holds(st, g) && ClusterRun(c, st, g, th, states, steps) && i < |states|
    ensures PlansRight(g, states[i])
    ensures FP.Inv(c, x => Value(st, x), states[i])
    ensures forall j :: 0 <= j < i ==> FP.Enabled(c, x => Value(st, x), states[j], steps[j])
  {
    hide FP.Apply, FP.CanStep, FP.Worth, FP.Inv, EngineStep, Value, StartsRight, FP.Init, PlansRight;
    if i == 0 {
      NoPlansYet(c, st, g, states[0]);
    } else {
      ClusterRunRight(c, st, g, th, states, steps, i - 1);
      assert ClusterStepAt(c, st, g, th, states, steps, i - 1);
      FP.TasksBelow(c, x => Value(st, x), states[i - 1]);
      PlansStayRight(c, st, g, th, states[i - 1], steps[i - 1]);
      StepIsWorth(c, st, g, th, states[i - 1], steps[i - 1]);
      FP.NextInv(c, x => Value(st, x), states[i - 1], steps[i - 1]);
    }
  }

  lemma NoPlansYet(c: Cluster, st: Store, g: set<Triple>, s: FP.State<Work>)
    requires FP.Init(c, s)
    ensures PlansRight(g, s) && FP.Inv(c, x => Value(st, x), s)
  {
  }

  lemma StepIsWorth(c: Cluster, st: Store, g: set<Triple>, th: Threads, s: FP.State<Work>, step: FP.Step<Work>)
    requires Holds(st, g) && ClusterStep(c, st, g, th, s, step) && PlansRight(g, s)
    ensures FP.Enabled(c, x => Value(st, x), s, step)
  {
    hide EngineStep, Value, StartsRight;
    EngineStepRight(st, g, th, s, step);
  }

  lemma ClusterRunIsRun(c: Cluster, st: Store, g: set<Triple>, th: Threads, states: seq<FP.State<Work>>, steps: seq<FP.Step<Work>>)
    requires Holds(st, g) && ClusterRun(c, st, g, th, states, steps)
    ensures FP.IsRun(c, x => Value(st, x), states, steps)
  {
    hide FP.Apply, ClusterStep, Value, FP.Init, FP.CanStep, FP.Worth;
    ClusterRunRight(c, st, g, th, states, steps, |steps|);
    forall i | 0 <= i < |steps|
      ensures states[i + 1] == FP.Apply(c, x => Value(st, x), states[i], steps[i])
    {
      assert ClusterStepAt(c, st, g, th, states, steps, i);
    }
  }

  /** In every run of the cluster, whatever is split where and in whatever order messages
      arrive, the answer a proxy gets is the solution set of the plan it sent. */
  lemma AnswerIsSolution(c: Cluster, st: Store, g: set<Triple>, th: Threads, states: seq<FP.State<Work>>, steps: seq<FP.Step<Work>>, i: nat, j: nat)
    requires Holds(st, g) && ClusterRun(c, st, g, th, states, steps) && i < j < |states| && steps[i].Submit?
    ensures steps[i].work.Plan? && steps[i].at in states[i].counters
    ensures states[i].counters[steps[i].at] in states[j].answers ==>
      IsSolutionTable(g, steps[i].work.plan, FinalCols([], steps[i].work.plan), states[j].answers[states[i].counters[steps[i].at]])
  {
    hide IsSolutionTable, Value, FP.Apply, FP.CanStep, FP.Worth, EngineStep, FinalCols, IsPlan, StartsRight, FP.Init;
    ClusterRunIsRun(c, st, g, th, states, steps);
    assert ClusterStepAt(c, st, g, th, states, steps, i);
    FP.AnswersAreRight(c, x => Value(st, x), states, steps, i, j);
    var r := states[i].counters[steps[i].at];
    if r in states[j].answers { PlanSolved(st, g, steps[i].work.plan, states[j].answers[r]); }
  }

  /** From the planner to the answer: a plan for a query, run by the cluster, is answered with
      exactly the query's solutions. */
  lemma QueryIsAnswered(c: Cluster, st: Store, g: set<Triple>, th: Threads, query: seq<Pattern>,
                        states: seq<FP.State<Work>>, steps: seq<FP.Step<Work>>, i: nat, j: nat)
    requires IsQuery(query) && query != []
    requires Holds(st, g) && ClusterRun(c, st, g, th, states, steps) && i < j < |states|
    requires steps[i].Submit? && steps[i].work.Plan? && IsPathFor(query, steps[i].work.plan)
    ensures steps[i].at in states[i].counters
    ensures states[i].counters[steps[i].at] in states[j].answers ==>
      IsSolutionTable(g, query, FinalCols([], steps[i].work.plan), states[j].answers[states[i].counters[steps[i].at]])
  {
    hide IsSolutionTable, ClusterStepAt, Holds, FP.Init;
    var plan := steps[i].work.plan;
    PlanBinds(query, plan);
    AnswerIsSolution(c, st, g, th, states, steps, i, j);
    var r := states[i].counters[steps[i].at];
    if r in states[j].answers { PlanSolvesQuery(g, query, plan, FinalCols([], plan), states[j].answers[r]); }
  }

  /** What the planner returns for a query that uses types as types and predicates as predicates
      may be submitted exactly unless it fails to start.  Whatever it returns does not fail if the
      query has no bad constant, and fails if every triple has one. */
  lemma PlanMayBeSubmitted(g: set<Triple>, query: seq<Pattern>, plan: seq<Pattern>)
    requires IsQuery(query) && query != [] && IsPathFor(query, plan) && UsesKinds(g, query)
    ensures plan != [] && (IsPlan(plan) && StartsRight(g, plan) <==> !StartFails(plan[0]))
    ensures (forall k :: 0 <= k < |query| ==> !BadConstant(query[k])) ==> !StartFails(plan[0])
    ensures (forall k :: 0 <= k < |query| ==> BadConstant(query[k])) ==> StartFails(plan[0])
  {
    hide StartFails, BadConstant, Executable, Ordered;
    PlanBinds(query, plan);
    ExecutableIff([], plan);
    PlanKinds(g, query, plan);
    var k := FirstTriple(query, plan);
  }

  /** The query uses types as types and predicates as predicates. */
  ghost predicate UsesKinds(g: set<Triple>, query: seq<Pattern>) {
    forall i, t :: 0 <= i < |query| && t in g ==>
      if query[i].pred == TYPE_ID then t.p != query[i].obj else t.p == TYPE_ID ==> t.o != query[i].pred
  }

  lemma {:induction false} FirstOfPath(ts: seq<Pattern>, bits: seq<bool>, path: seq<Pattern>) returns (k: nat)
    requires |bits| == |ts| && Covers(ts, bits, path) && path != []
    ensures k < |ts| && (Implied(path[0], ts[k]) || Realizes(path[0], ts[k]))
    decreases |path|
  {
    if |path| == 1 && exists j :: 0 <= j < |ts| && Implied(path[0], ts[j]) {
      k :| 0 <= k < |ts| && Implied(path[0], ts[k]);
    } else {
      var j :| CoversLast(ts, bits, path, j);
      if |path| == 1 { k := j; } else { k := FirstOfPath(ts, bits[j := false], Front(path)); }
    }
  }

  lemma PlanKinds(g: set<Triple>, query: seq<Pattern>, plan: seq<Pattern>)
    requires IsQuery(query) && IsPathFor(query, plan) && UsesKinds(g, query)
    ensures StartsRight(g, plan)
  {
    if plan != [] && IsIndexPattern(plan[0]) {
      var bits: seq<bool> :| |bits| == |query| && AllSet(bits) && Covers(query, bits, plan);
      var k := FirstOfPath(query, bits, plan);
      assert IsTriple(query[k]);
    }
  }
}
