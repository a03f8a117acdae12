/**
 * Every query of a cluster comes to its end.
 *
 * In every reachable state with a query under way some step is possible, whatever the number of
 * patterns the engine at hand runs before it splits; every step other than a new submission uses
 * up part of a finite amount of work.  So once no new queries come in, a bounded number of steps
 * later every query has been answered and every query that was split has been resumed once.
 */
module Progress {
  import opened Query
  import opened ForkJoin
  import opened ParallelStart
  import opened Coder
  import opened Distributed
  import FP = ForkProtocol

  // ---- what is under way can be handled ----

  /** How many patterns are left to run. */
  function Left(w: Work): nat {
    match w
    case Plan(plan) => |plan|
    case Copy(plan, _, _, _) => |plan|
    case Rest(_, pats, _) => |pats|
  }

  /** A query that an engine can work on at this place. */
  ghost predicate WellFormed(th: Threads, w: Work, to: FP.Place) {
    && th.proxies <= to.tid
    && match w
       case Plan(plan) => IsPlan(plan)
       case Copy(plan, mt, server, slice) => IsPlan(plan) && IsIndexPattern(plan[0]) && slice < mt && server == to.sid
       case Rest(_, pats, _) => IsRest(w) && pats != []
  }

  ghost predicate AllWellFormed(th: Threads, s: FP.State<Work>) {
    forall k :: k in s.tasks && s.tasks[k].Sent? ==> WellFormed(th, s.tasks[k].work, s.tasks[k].to)
  }

  /** The parts that an engine splits a query into can be worked on where they are sent. */
  lemma PartsWellFormed(st: Store, th: Threads, s: FP.State<Work>, k: nat, parts: seq<FP.Part<Work>>, i: nat)
    requires st.servers > 0 && EngineStep(st, th, s, FP.Split(k, parts)) && i < |parts|
    ensures WellFormed(th, parts[i].work, parts[i].to)
  {
    hide Advanced, Executable, Supported;
    var w := s.tasks[k].work;
    if n: nat :| SplitsRows(st, th, w, n, parts) {
      FirstBound(Advanced(st, w, n));
    } else {
      var mt: nat, slices, order :| SplitsPlan(st, th, w, s.tasks[k].to, mt, slices, order, parts);
    }
  }

  lemma StepWellFormed(c: Cluster, st: Store, g: set<Triple>, th: Threads, s: FP.State<Work>, step: FP.Step<Work>)
    requires st.servers > 0 && Sized(c) && ClusterStep(c, st, g, th, s, step) && AllWellFormed(th, s)
    requires forall j: nat :: j in s.tasks ==> j < s.next
    ensures AllWellFormed(th, FP.Apply(c, x => Value(st, x), s, step))
  {
    hide StartsRight, IsPlan, IsRest, Value, EngineStep, FP.Apply, FP.CanStep;
    var s' := FP.Apply(c, x => Value(st, x), s, step);
    forall k | k in s'.tasks && s'.tasks[k].Sent?
      ensures WellFormed(th, s'.tasks[k].work, s'.tasks[k].to)
    {
      FP.SentAfter(c, x => Value(st, x), s, step, k);
      if step.Split? && !(k in s.tasks && s.tasks[k] == s'.tasks[k]) {
        var i :| 0 <= i < |step.parts| && s'.tasks[k].work == step.parts[i].work && s'.tasks[k].to == step.parts[i].to;
        PartsWellFormed(st, th, s, step.k, step.parts, i);
      }
    }
  }

  /** Every query under way in a run can be worked on where it is. */
  lemma {:induction false} RunWellFormed(c: Cluster, st: Store, g: set<Triple>, th: Threads,
                                         states: seq<FP.State<Work>>, steps: seq<FP.Step<Work>>, i: nat)
    requires Holds(st, g) && ClusterRun(c, st, g, th, states, steps) && i < |states|
    ensures AllWellFormed(th, states[i])
  {
    hide FP.Apply, ClusterStep, FP.CanStep, FP.Worth, FP.Inv, Value, WellFormed, Holds;
    if i > 0 {
      RunWellFormed(c, st, g, th, states, steps, i - 1);
      assert ClusterStepAt(c, st, g, th, states, steps, i - 1);
      ClusterRunRight(c, st, g, th, states, steps, i - 1);
      FP.TasksBelow(c, x => Value(st, x), states[i - 1]);
      StepWellFormed(c, st, g, th, states[i - 1], steps[i - 1]);
    }
  }

  /** What running n patterns in place leaves. */
  lemma AfterPatterns(st: Store, th: Threads, w: Work, to: FP.Place, n: nat)
    requires st.servers > 0 && WellFormed(th, w, to) && 0 < n <= Left(w)
    requires w.Plan? && IsIndexPattern(w.plan[0]) ==> st.servers == 1
    ensures IsRest(Advanced(st, w, n)) && Left(Advanced(st, w, n)) == Left(w) - n
  {
    hide Executable, Explore, FinalCols, Piece, StartRows;
    if w.Rest? {
      RestAfter(st, w, n);
    } else {
      FirstPattern(w.plan);
      var w1 := Advance(st, w);
      assert IsRest(w1) && w1.pats == w.plan[1..] by { FirstRest(st, w); }
      RestAfter(st, w1, n - 1);
    }
  }

  lemma FirstRest(st: Store, w: Work)
    requires (w.Plan? || (w.Copy? && w.slice < w.mt)) && IsPlan(w.plan)
    requires w.Plan? && IsIndexPattern(w.plan[0]) ==> st.servers == 1
    ensures IsRest(Advance(st, w)) && Advance(st, w).pats == w.plan[1..]
  {
    FirstPattern(w.plan);
  }

  lemma {:induction false} RestAfter(st: Store, w: Work, n: nat)
    requires IsRest(w) && n <= |w.pats|
    ensures IsRest(Advanced(st, w, n)) && |Advanced(st, w, n).pats| == |w.pats| - n
    decreases n
  {
    hide StepFrom, Supported;
    if n > 0 {
      StepShaped(st, w.cols, w.pats[0], w.rows);
      AfterNonEmpty(w.cols, w.pats[0]);
      RestAfter(st, Advance(st, w), n - 1);
    }
  }

  ghost predicate Runs(st: Store, th: Threads, w: Work, n: nat, step: FP.Step<Work>)
    requires st.servers > 0
  {
    match step
    case Finish(_, rows) => Finishes(st, w, n, rows)
    case Split(_, parts) => SplitsRows(st, th, w, n, parts)
    case _ => false
  }

  /** What thread tid splits a query into: one part for each server, to its namesake there. */
  ghost function PartsFor(st: Store, w: Work, tid: nat): (parts: seq<FP.Part<Work>>)
    requires st.servers > 0 && IsRest(w) && w.pats != []
    ensures SharesOf(st, w, parts) && forall i :: 0 <= i < |parts| ==> parts[i].to == FP.Place(i, tid)
  {
    FirstBound(w);
    seq(st.servers, i requires 0 <= i < st.servers =>
      FP.Part(FP.Place(i, tid), Rest(w.cols, w.pats, Share(w.cols, w.pats[0].subj, st.servers, i, w.rows))))
  }

  /** A query on an engine can be handled, whatever number n of patterns the engine runs in place
      before it splits the rest; with none left it finishes. */
  lemma QueryCanBeHandled(c: Cluster, st: Store, g: set<Triple>, th: Threads, s: FP.State<Work>, k: nat, n: nat)
      returns (step: FP.Step<Work>)
    requires st.servers > 0 && Staffed(c, st, th) && k in s.tasks && s.tasks[k].Sent?
    requires WellFormed(th, s.tasks[k].work, s.tasks[k].to) && FP.IsPlace(c, s.tasks[k].to)
    requires FP.CanCount(c, s.counters, s.tasks[k].to)
    requires 0 < n <= Left(s.tasks[k].work)
    requires s.tasks[k].work.Plan? && IsIndexPattern(s.tasks[k].work.plan[0]) ==> st.servers == 1
    ensures (step.Finish? || step.Split?) && step.k == k && Runs(st, th, s.tasks[k].work, n, step)
    ensures ClusterStep(c, st, g, th, s, step)
  {
    hide Advanced, Executable, WellFormed, Value, Supported, IsPlan, Share;
    var t := s.tasks[k];
    AfterPatterns(st, th, t.work, t.to, n);
    var w' := Advanced(st, t.work, n);
    if w'.pats == [] {
      step := FP.Finish(k, w'.rows);
      assert Finishes(st, t.work, n, w'.rows);
    } else {
      FirstBound(w');
      var parts := PartsFor(st, w', th.proxies);
      step := FP.Split(k, parts);
      assert SplitsRows(st, th, t.work, n, parts);
    }
  }

  /** A plan that starts from an index can be copied to all servers. */
  lemma PlanCanBeCopied(c: Cluster, st: Store, g: set<Triple>, th: Threads, s: FP.State<Work>, k: nat)
      returns (step: FP.Step<Work>)
    requires st.servers > 0 && Staffed(c, st, th) && k in s.tasks && s.tasks[k].Sent? && s.tasks[k].work.Plan?
    requires IsPlan(s.tasks[k].work.plan) && IsIndexPattern(s.tasks[k].work.plan[0])
    requires th.proxies <= s.tasks[k].to.tid && FP.CanCount(c, s.counters, s.tasks[k].to)
    ensures step.Split? && step.k == k && ClusterStep(c, st, g, th, s, step)
    ensures IsCopied(st, th, s.tasks[k].work, s.tasks[k].to, step)
  {
    hide Executable, Value, IsPlan, IsIndexPattern;
    var t := s.tasks[k];
    var order := Servers(st.servers);
    OnePerServer(st.servers);
    var parts := seq(st.servers, i requires 0 <= i < st.servers =>
      FP.Part(FP.Place(i, th.proxies), Copy(t.work.plan, 1, i, 0)));
    step := FP.Split(k, parts);
    assert SplitsPlan(st, th, t.work, t.to, 1, [0], order, parts);
  }

  ghost predicate IsCopied(st: Store, th: Threads, w: Work, to: FP.Place, step: FP.Step<Work>) {
    step.Split? && exists mt: nat, slices, order :: SplitsPlan(st, th, w, to, mt, slices, order, step.parts)
  }

  /** One pattern is run before the split, or the plan is copied. */
  ghost predicate OneThenSplit(st: Store, th: Threads, t: FP.Task<Work>, step: FP.Step<Work>)
    requires st.servers > 0
  {
    t.Sent? && (Runs(st, th, t.work, 1, step) || IsCopied(st, th, t.work, t.to, step))
  }

  /** No thread has used up its numbers. */
  ghost predicate NumbersLeft(c: Cluster, s: FP.State<Work>) {
    forall p :: p in s.counters ==> FP.CanCount(c, s.counters, p)
  }

  /** In every reachable state with anything under way some step other than a submission is
      possible, even if every engine runs just one pattern before it splits. */
  lemma SomeStepIsPossible(c: Cluster, st: Store, g: set<Triple>, th: Threads,
                           states: seq<FP.State<Work>>, steps: seq<FP.Step<Work>>, i: nat)
      returns (step: FP.Step<Work>)
    requires Holds(st, g) && ClusterRun(c, st, g, th, states, steps) && i < |states|
    requires states[i].tasks != map[] && NumbersLeft(c, states[i])
    ensures !step.Submit? && ClusterStep(c, st, g, th, states[i], step)
    ensures step.Finish? || step.Split? ==> step.k in states[i].tasks && OneThenSplit(st, th, states[i].tasks[step.k], step)
  {
    hide FP.Apply, ClusterStep, FP.Worth, FP.Inv, Value, WellFormed, Runs, SplitsPlan, FP.Init, ClusterStepAt, Executable;
    RunWellFormed(c, st, g, th, states, steps, i);
    ClusterRunRight(c, st, g, th, states, steps, i);
    var s := states[i];
    var k0 :| k0 in s.tasks;
    var k := FP.SomethingToHandle(c, x => Value(st, x), s, k0);
    if s.tasks[k].Answered? {
      step := AnswerCanBeHandled(c, st, g, th, s, k);
    } else {
      SentPlace(c, st, s, k);
      step := SentCanBeHandled(c, st, g, th, s, k);
    }
  }

  lemma SentPlace(c: Cluster, st: Store, s: FP.State<Work>, k: nat)
    requires FP.Inv(c, x => Value(st, x), s) && k in s.tasks && s.tasks[k].Sent?
    ensures FP.IsPlace(c, s.tasks[k].to) && s.tasks[k].to in s.counters
  {
    hide Value, FP.Pending, FP.Owed, FP.AllParented, FP.OneParent, FP.RootsOk, FP.ResumedOk;
    assert FP.TaskOk(c, x => Value(st, x), s, k);
  }

  lemma SentCanBeHandled(c: Cluster, st: Store, g: set<Triple>, th: Threads, s: FP.State<Work>, k: nat) returns (step: FP.Step<Work>)
    requires st.servers > 0 && Staffed(c, st, th) && k in s.tasks && s.tasks[k].Sent?
    requires WellFormed(th, s.tasks[k].work, s.tasks[k].to) && FP.IsPlace(c, s.tasks[k].to)
    requires FP.CanCount(c, s.counters, s.tasks[k].to)
    ensures (step.Finish? || step.Split?) && step.k == k && ClusterStep(c, st, g, th, s, step)
    ensures OneThenSplit(st, th, s.tasks[k], step)
  {
    hide ClusterStep, Runs, SplitsPlan, Executable;
    var t := s.tasks[k];
    if t.work.Plan? && IsIndexPattern(t.work.plan[0]) && st.servers > 1 {
      step := PlanCanBeCopied(c, st, g, th, s, k);
    } else {
      step := QueryCanBeHandled(c, st, g, th, s, k, 1);
    }
  }

  lemma AnswerCanBeHandled(c: Cluster, st: Store, g: set<Triple>, th: Threads, s: FP.State<Work>, k: nat) returns (step: FP.Step<Work>)
    requires st.servers > 0 && FP.Inv(c, x => Value(st, x), s) && k in s.tasks && s.tasks[k].Answered?
    ensures (step.Merge? || step.Deliver?) && ClusterStep(c, st, g, th, s, step)
  {
    hide FP.Inv, Value;
    var p := FP.AnswerFindsParent(c, x => Value(st, x), s, k);
    step := if FP.CanStep(c, s, FP.Deliver(k)) then FP.Deliver(k) else FP.Merge(k, p);
  }

  // ---- the work left ----

  /** What a query costs at most that has d rounds of splitting left, into at most b parts. */
  function Cost(d: nat, b: nat): (r: nat)
    ensures r >= 2
  {
    if d == 0 then 2 else 2 + b * Cost(d - 1, b)
  }

  lemma {:induction false} CostGrows(d: nat, e: nat, b: nat)
    requires d <= e && b > 0
    ensures Cost(d, b) <= Cost(e, b)
    decreases e
  {
    if d < e {
      CostGrows(d, e - 1, b);
      AtLeast(b, Cost(e - 1, b));
    }
  }

  lemma AtLeast(b: nat, x: nat)
    requires b > 0
    ensures x <= b * x
  {
    assert b * x == x + (b - 1) * x;
  }

  lemma MulUp(a: nat, b: nat, x: nat)
    requires a <= b
    ensures a * x <= b * x
  {
    assert b * x == a * x + (b - a) * x;
  }

  /** Rounds of splitting left: a plan may be copied first. */
  function Rounds(w: Work): nat { Left(w) + if w.Plan? then 1 else 0 }

  function Weight(b: nat, t: FP.Task<Work>): nat { if t.Sent? then Cost(Rounds(t.work), b) else 1 }

  function WeightAt(b: nat, tasks: map<nat, FP.Task<Work>>, k: nat): nat { if k in tasks then Weight(b, tasks[k]) else 0 }

  function Load(b: nat, tasks: map<nat, FP.Task<Work>>, n: nat): nat {
    if n == 0 then 0 else Load(b, tasks, n - 1) + WeightAt(b, tasks, n - 1)
  }

  function MaxParts(st: Store, th: Threads): nat { st.servers * th.engines }

  /** The work that is left in a state. */
  function WorkLeft(st: Store, th: Threads, s: FP.State<Work>): nat { Load(MaxParts(st, th), s.tasks, s.next) }

  lemma {:induction false} SameLoad(b: nat, t: map<nat, FP.Task<Work>>, t': map<nat, FP.Task<Work>>, n: nat)
    requires forall j: nat :: j < n ==> WeightAt(b, t, j) == WeightAt(b, t', j)
    ensures Load(b, t, n) == Load(b, t', n)
  {
    if n > 0 { SameLoad(b, t, t', n - 1); }
  }

  lemma {:induction false} LoadChange(b: nat, t: map<nat, FP.Task<Work>>, t': map<nat, FP.Task<Work>>, k: nat, n: nat)
    requires k < n && forall j: nat :: j < n && j != k ==> WeightAt(b, t, j) == WeightAt(b, t', j)
    ensures Load(b, t', n) + WeightAt(b, t, k) == Load(b, t, n) + WeightAt(b, t', k)
  {
    hide WeightAt;
    if k == n - 1 { SameLoad(b, t, t', n - 1); } else { LoadChange(b, t, t', k, n - 1); }
  }

  lemma {:induction false} LoadParts(b: nat, t: map<nat, FP.Task<Work>>, n: nat, m: nat, x: nat)
    requires forall j: nat :: n <= j < n + m ==> WeightAt(b, t, j) <= x
    ensures Load(b, t, n + m) <= Load(b, t, n) + m * x
    decreases m
  {
    hide WeightAt;
    if m > 0 {
      LoadParts(b, t, n, m - 1, x);
      assert (m - 1) * x + x == m * x;
    }
  }

  /** Running patterns in place leaves fewer. */
  lemma {:induction false} LeftAfter(st: Store, w: Work, n: nat)
    requires n > 0 && IsRest(Advanced(st, w, n))
    ensures Rounds(Advanced(st, w, n)) < Rounds(w) || (w.Rest? && w.pats == [] && Advanced(st, w, n) == w)
    decreases n
  {
    hide Piece, StartRows, StepFrom, Executable, Supported;
    var w1 := Advance(st, w);
    if n > 1 { LeftAfter(st, w1, n - 1); }
  }

  /** The parts of a query are not too many, and have fewer rounds left. */
  lemma PartsAreSmaller(st: Store, th: Threads, s: FP.State<Work>, k: nat, parts: seq<FP.Part<Work>>)
    requires st.servers > 0 && th.engines > 0 && EngineStep(st, th, s, FP.Split(k, parts))
    ensures |parts| <= MaxParts(st, th)
    ensures forall i :: 0 <= i < |parts| ==> Rounds(parts[i].work) < Rounds(s.tasks[k].work)
  {
    hide Advanced, Executable, Supported;
    var w := s.tasks[k].work;
    if n: nat :| SplitsRows(st, th, w, n, parts) {
      LeftAfter(st, w, n);
      AtLeast(th.engines, st.servers);
      assert th.engines * st.servers == st.servers * th.engines;
    } else {
      var mt: nat, slices, order :| SplitsPlan(st, th, w, s.tasks[k].to, mt, slices, order, parts);
      MulUp(mt, th.engines, st.servers);
      assert mt * st.servers == st.servers * mt && th.engines * st.servers == st.servers * th.engines;
    }
  }

  lemma SplitUsesWork(c: Cluster, st: Store, th: Threads, s: FP.State<Work>, k: nat, parts: seq<FP.Part<Work>>)
    requires st.servers > 0 && th.engines > 0 && Sized(c) && FP.CanStep(c, s, FP.Split(k, parts))
    requires EngineStep(st, th, s, FP.Split(k, parts))
    requires forall j: nat :: j in s.tasks ==> j < s.next
    ensures WorkLeft(st, th, FP.Apply(c, x => Value(st, x), s, FP.Split(k, parts))) < WorkLeft(st, th, s)
  {
    hide EngineStep, Value, Load, MaxParts, Rounds, FP.Counted, Cost;
    var b := MaxParts(st, th);
    var s' := FP.Apply(c, x => Value(st, x), s, FP.Split(k, parts));
    PartsAreSmaller(st, th, s, k, parts);
    var d := Rounds(s.tasks[k].work);
    LoadChange(b, s.tasks, s'.tasks, k, s.next);
    PartWeights(st, th, s, s', k, parts, s.counters[s.tasks[k].to]);
    var x := Cost(d - 1, b);
    LoadParts(b, s'.tasks, s.next, |parts|, x);
    MulUp(|parts|, b, x);
    CostStep(d, b);
  }

  lemma CostStep(d: nat, b: nat)
    requires d > 0
    ensures Cost(d, b) == 2 + b * Cost(d - 1, b)
  {
  }

  lemma PartWeights(st: Store, th: Threads, s: FP.State<Work>, s': FP.State<Work>, k: nat, parts: seq<FP.Part<Work>>, id: nat)
    requires k in s.tasks && s.tasks[k].Sent? && parts != [] && |parts| <= MaxParts(st, th)
    requires forall i :: 0 <= i < |parts| ==> Rounds(parts[i].work) < Rounds(s.tasks[k].work)
    requires forall j: nat :: s.next <= j < s.next + |parts| ==>
      j in s'.tasks && s'.tasks[j] == FP.SentPart(x => Value(st, x), id, parts[j - s.next])
    ensures Rounds(s.tasks[k].work) > 0
    ensures forall j: nat :: s.next <= j < s.next + |parts| ==>
      WeightAt(MaxParts(st, th), s'.tasks, j) <= Cost(Rounds(s.tasks[k].work) - 1, MaxParts(st, th))
  {
    hide Value, Cost, Rounds, MaxParts;
    var d := Rounds(s.tasks[k].work);
    assert Rounds(parts[0].work) < d;
    forall j: nat | s.next <= j < s.next + |parts|
      ensures WeightAt(MaxParts(st, th), s'.tasks, j) <= Cost(d - 1, MaxParts(st, th))
    {
      assert s'.tasks[j].work == parts[j - s.next].work;
      CostGrows(Rounds(parts[j - s.next].work), d - 1, MaxParts(st, th));
    }
  }

  lemma MergeUsesWork(c: Cluster, st: Store, th: Threads, s: FP.State<Work>, k: nat, p: nat)
    requires Sized(c) && FP.CanStep(c, s, FP.Merge(k, p)) && (forall j: nat :: j in s.tasks ==> j < s.next)
    ensures WorkLeft(st, th, FP.Apply(c, x => Value(st, x), s, FP.Merge(k, p))) < WorkLeft(st, th, s)
  {
    hide Value, Load, MaxParts, Cost, FP.OwnerOf;
    var s' := FP.Apply(c, x => Value(st, x), s, FP.Merge(k, p));
    LoadChange(MaxParts(st, th), s.tasks, s'.tasks, k, s.next);
  }

  /** Every step but a submission uses up work. */
  lemma StepUsesWork(c: Cluster, st: Store, g: set<Triple>, th: Threads, s: FP.State<Work>, step: FP.Step<Work>)
    requires st.servers > 0 && th.engines > 0 && Sized(c) && ClusterStep(c, st, g, th, s, step) && !step.Submit?
    requires forall j: nat :: j in s.tasks ==> j < s.next
    ensures WorkLeft(st, th, FP.Apply(c, x => Value(st, x), s, step)) < WorkLeft(st, th, s)
  {
    hide Value, Load, MaxParts, Cost, FP.OwnerOf, EngineStep, Rounds, FP.Counted;
    var s' := FP.Apply(c, x => Value(st, x), s, step);
    match step
    case Finish(k, rows) => LoadChange(MaxParts(st, th), s.tasks, s'.tasks, k, s.next);
    case Split(k, parts) => SplitUsesWork(c, st, th, s, k, parts);
    case Merge(k, p) => MergeUsesWork(c, st, th, s, k, p);
    case Deliver(k) => LoadChange(MaxParts(st, th), s.tasks, s'.tasks, k, s.next);
  }

  /** As long as nothing is submitted, a run takes no more steps than there is work left. */
  lemma {:induction false} RunEnds(c: Cluster, st: Store, g: set<Triple>, th: Threads,
                                   states: seq<FP.State<Work>>, steps: seq<FP.Step<Work>>, i: nat, j: nat)
    requires Holds(st, g) && ClusterRun(c, st, g, th, states, steps) && i <= j < |states|
    requires forall m :: i <= m < j ==> !steps[m].Submit?
    ensures j - i + WorkLeft(st, th, states[j]) <= WorkLeft(st, th, states[i])
    decreases j
  {
    hide FP.Apply, ClusterStep, FP.Inv, Value, WorkLeft, FP.Init;
    if i < j {
      RunEnds(c, st, g, th, states, steps, i, j - 1);
      assert ClusterStepAt(c, st, g, th, states, steps, j - 1);
      ClusterRunRight(c, st, g, th, states, steps, j - 1);
      FP.TasksBelow(c, x => Value(st, x), states[j - 1]);
      StepUsesWork(c, st, g, th, states[j - 1], steps[j - 1]);
    }
  }

  // ---- the end of a run ----

  /** A query that has been split waits until it is resumed. */
  ghost predicate WaitsOrResumed(s: FP.State<Work>, id: nat) {
    id in s.resumed || exists k: nat :: FP.IsParent(s.tasks, id, k)
  }

  lemma WaitsUntilResumed(c: Cluster, st: Store, s: FP.State<Work>, step: FP.Step<Work>, id: nat)
    requires Sized(c) && FP.CanStep(c, s, step) && WaitsOrResumed(s, id)
    requires forall j: nat :: j in s.tasks ==> j < s.next
    ensures WaitsOrResumed(FP.Apply(c, x => Value(st, x), s, step), id)
  {
    hide Value, FP.OwnerOf, FP.Counted, FP.CanCount;
    var s' := FP.Apply(c, x => Value(st, x), s, step);
    if id in s.resumed {
      FP.ResumedStep(c, x => Value(st, x), s, step);
    } else {
      var k: nat :| FP.IsParent(s.tasks, id, k);
      if step.Merge? && step.parent == k && s.tasks[k].cnt <= 1 {
        assert s'.resumed == s.resumed + [id];
      } else {
        assert FP.IsParent(s'.tasks, id, k);
      }
    }
  }

  lemma {:induction false} WaitsToTheEnd(c: Cluster, st: Store, g: set<Triple>, th: Threads,
                                         states: seq<FP.State<Work>>, steps: seq<FP.Step<Work>>, i: nat, j: nat, id: nat)
    requires Holds(st, g) && ClusterRun(c, st, g, th, states, steps) && i <= j < |states| && WaitsOrResumed(states[i], id)
    ensures WaitsOrResumed(states[j], id)
    decreases j
  {
    hide FP.Apply, FP.CanStep, EngineStep, FP.Inv, Value, WaitsOrResumed, FP.Init;
    if i < j {
      WaitsToTheEnd(c, st, g, th, states, steps, i, j - 1, id);
      assert ClusterStepAt(c, st, g, th, states, steps, j - 1);
      ClusterRunRight(c, st, g, th, states, steps, j - 1);
      FP.TasksBelow(c, x => Value(st, x), states[j - 1]);
      WaitsUntilResumed(c, st, states[j - 1], steps[j - 1], id);
    }
  }

  /** Where no step but a submission is possible, nothing is under way. */
  lemma NothingLeft(c: Cluster, st: Store, g: set<Triple>, th: Threads,
                    states: seq<FP.State<Work>>, steps: seq<FP.Step<Work>>, j: nat)
    requires Holds(st, g) && ClusterRun(c, st, g, th, states, steps) && j < |states|
    requires NumbersLeft(c, states[j])
    ensures states[j].tasks == map[] <==> forall step :: ClusterStep(c, st, g, th, states[j], step) ==> step.Submit?
  {
    hide FP.Inv, Value, Holds, FP.Init, ClusterRun, IsCopied, Runs, NumbersLeft;
    if states[j].tasks != map[] {
      var step := SomeStepIsPossible(c, st, g, th, states, steps, j);
    }
  }

  lemma RootIsAnswered(c: Cluster, st: Store, s: FP.State<Work>, r: nat)
    requires FP.Inv(c, x => Value(st, x), s) && s.tasks == map[] && r in s.roots
    ensures r in s.answers
  {
    hide Value, FP.TasksOk, FP.AllParented, FP.OneParent, FP.ResumedOk, FP.OwnerOf, FP.Pending, FP.Owed;
    FP.NoneUnder(s.tasks, r, s.next);
    assert FP.RootOk(c, s, r);
  }

  /** When nothing more can be done, every query submitted has been answered with exactly its
      solutions ... */
  lemma EveryQueryIsAnswered(c: Cluster, st: Store, g: set<Triple>, th: Threads,
                             states: seq<FP.State<Work>>, steps: seq<FP.Step<Work>>, i: nat, j: nat)
    requires Holds(st, g) && ClusterRun(c, st, g, th, states, steps) && i < j < |states| && steps[i].Submit?
    requires NumbersLeft(c, states[j]) && forall step :: ClusterStep(c, st, g, th, states[j], step) ==> step.Submit?
    ensures steps[i].work.Plan? && steps[i].at in states[i].counters
    ensures states[i].counters[steps[i].at] in states[j].answers
    ensures IsSolutionTable(g, steps[i].work.plan, FinalCols([], steps[i].work.plan), states[j].answers[states[i].counters[steps[i].at]])
  {
    hide FP.Inv, Value, Holds, FP.Init, IsSolutionTable, FP.Apply, ClusterStep, NumbersLeft, FP.CanStep, FP.Worth, FinalCols;
    NothingLeft(c, st, g, th, states, steps, j);
    ClusterRunRight(c, st, g, th, states, steps, j);
    AnswerIsSolution(c, st, g, th, states, steps, i, j);
    SubmittedIsRoot(c, st, g, th, states, steps, i, j);
    RootIsAnswered(c, st, states[j], states[i].counters[steps[i].at]);
  }

  lemma SubmittedIsRoot(c: Cluster, st: Store, g: set<Triple>, th: Threads,
                        states: seq<FP.State<Work>>, steps: seq<FP.Step<Work>>, i: nat, j: nat)
    requires Holds(st, g) && ClusterRun(c, st, g, th, states, steps) && i < j < |states| && steps[i].Submit?
    requires steps[i].at in states[i].counters
    ensures states[i].counters[steps[i].at] in states[j].roots
  {
    hide Value, Holds, FP.Worth, EngineStep, FP.CanCount, FP.Counted;
    ClusterRunIsRun(c, st, g, th, states, steps);
    assert ClusterStepAt(c, st, g, th, states, steps, i);
    FP.RootsStay(c, x => Value(st, x), states, steps, i + 1, j, states[i].counters[steps[i].at]);
  }

  /** ... and every query that was ever split has been resumed exactly once. */
  lemma EveryParentResumesOnce(c: Cluster, st: Store, g: set<Triple>, th: Threads,
                               states: seq<FP.State<Work>>, steps: seq<FP.Step<Work>>, i: nat, j: nat, id: nat, k: nat)
    requires Holds(st, g) && ClusterRun(c, st, g, th, states, steps) && i <= j < |states|
    requires FP.IsParent(states[i].tasks, id, k)
    requires NumbersLeft(c, states[j]) && forall step :: ClusterStep(c, st, g, th, states[j], step) ==> step.Submit?
    ensures multiset(states[j].resumed)[id] == 1
  {
    hide Value, Holds, FP.Init, FP.Apply, FP.Worth, ClusterStep, NumbersLeft, FP.CanStep, FP.Inv;
    NothingLeft(c, st, g, th, states, steps, j);
    assert WaitsOrResumed(states[i], id);
    WaitsToTheEnd(c, st, g, th, states, steps, i, j, id);
    ClusterRunIsRun(c, st, g, th, states, steps);
    FP.ResumedOnce(c, x => Value(st, x), states, steps, j, j);
    OnceIn(states[j].resumed, id);
  }

  lemma OnceIn(s: seq<nat>, x: nat)
    requires Distinct(s) && x in s
    ensures multiset(s)[x] == 1
  {
    DistinctOnce(s);
    assert x in multiset(s);
  }
}
