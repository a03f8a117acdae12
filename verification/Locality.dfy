/**
 * Which server reads what (core/engine.hpp, core/proxy.hpp, core/gstore.hpp).
 *
 * Without RDMA a server can only read its own part of the graph.  With several servers the
 * engines then split after every pattern, and a proxy sends a plan to the server that owns the
 * vertex it starts from.  In every run of such a cluster all reads are local.
 */
module Locality {
  import opened Query
  import opened ForkJoin
  import opened ParallelStart
  import opened Coder
  import opened Table
  import opened Distributed
  import opened Progress
  import FP = ForkProtocol
  import EN = Engine
  import CR = CoRun

  /** What a server reads: the edges of a vertex, or the index list that `owner` keeps. */
  datatype Read = Edges(server: nat, vertex: Id) | IndexList(server: nat, owner: nat)

  ghost predicate IsLocal(r: Read, n: nat)
    requires n > 0
  {
    match r
    case Edges(server, v) => Owner(v, n) == server
    case IndexList(server, owner) => owner == server
  }

  ghost predicate AllLocal(rs: set<Read>, n: nat)
    requires n > 0
  {
    forall r :: r in rs ==> IsLocal(r, n)
  }

  /** A plan that starts from a constant. */
  ghost predicate FromConstant(w: Work) { w.Plan? && IsPlan(w.plan) && !IsIndexPattern(w.plan[0]) }

  ghost function StartOf(w: Work): Id
    requires FromConstant(w)
  {
    FirstPattern(w.plan);
    w.plan[0].subj
  }

  /** The reads that running the next pattern takes on server sid. */
  ghost function Reads(st: Store, w: Work, sid: nat): set<Read> {
    match w
    case Plan(plan) =>
      if FromConstant(w) then {Edges(sid, StartOf(w))}
      else if st.servers == 1 then {IndexList(sid, 0)}
      else {}  // copied, not run
    case Copy(_, _, server, _) => {IndexList(sid, server)}
    case Rest(cols, pats, rows) =>
      if !IsRest(w) || pats == [] then {}
      else
        FirstBound(w);
        set i | 0 <= i < |rows| :: Edges(sid, Val(cols, rows[i], pats[0].subj))
  }

  /** The next pattern of rows held by server sid reads locally exactly if sid owns the vertex
      that each row goes on from. */
  lemma RestLocalIff(st: Store, w: Work, sid: nat, n: nat)
    requires IsRest(w) && w.pats != [] && n > 0
    ensures w.pats[0].subj in w.cols
    ensures AllLocal(Reads(st, w, sid), n) <==> Share(w.cols, w.pats[0].subj, n, sid, w.rows) == w.rows
  {
    hide Owner, Val, Executable, Supported;
    FirstBound(w);
    var x := w.pats[0].subj;
    if AllLocal(Reads(st, w, sid), n) {
      forall i | 0 <= i < |w.rows|
        ensures Owner(Val(w.cols, w.rows[i], x), n) == sid
      {
        assert Edges(sid, Val(w.cols, w.rows[i], x)) in Reads(st, w, sid);
      }
      ShareAll(w.cols, x, n, sid, w.rows);
    }
    if Share(w.cols, x, n, sid, w.rows) == w.rows { SharesAreLocal(st, w, sid, n); }
  }

  lemma SharesAreLocal(st: Store, w: Work, sid: nat, n: nat)
    requires IsRest(w) && w.pats != [] && n > 0 && w.pats[0].subj in w.cols
    requires Share(w.cols, w.pats[0].subj, n, sid, w.rows) == w.rows
    ensures AllLocal(Reads(st, w, sid), n)
  {
    hide Owner, Val, Executable, Supported;
    var x := w.pats[0].subj;
    var kept := Share(w.cols, x, n, sid, w.rows);
    forall i | 0 <= i < |w.rows|
      ensures Owner(Val(w.cols, w.rows[i], x), n) == sid
    {
      assert kept[i] == w.rows[i];
    }
  }

  lemma {:induction false} ShareAll(cols: seq<int>, x: int, n: nat, i: nat, rows: seq<Row>)
    requires n > 0 && Bound(cols, x) && Shaped(cols, rows)
    requires forall k :: 0 <= k < |rows| ==> Owner(Val(cols, rows[k], x), n) == i
    ensures Share(cols, x, n, i, rows) == rows
    decreases |rows|
  {
    if rows != [] { ShareAll(cols, x, n, i, rows[1..]); }
  }

  lemma ShareIsLocal(st: Store, w: Work, sid: nat, n: nat, rows: seq<Row>)
    requires IsRest(w) && w.pats != [] && n > 0 && w.pats[0].subj in w.cols && Shaped(w.cols, rows)
    requires w.rows == Share(w.cols, w.pats[0].subj, n, sid, rows)
    ensures AllLocal(Reads(st, w, sid), n)
  {
    hide Owner, Val, Executable, Supported;
  }

  // ---- what is sent where, in every run ----

  /** Parts of a query go where their next pattern reads locally. */
  ghost predicate PartsLocal(st: Store, s: FP.State<Work>)
    requires st.servers > 0
  {
    forall k :: k in s.tasks && s.tasks[k].Sent? && !FromConstant(s.tasks[k].work) ==>
      AllLocal(Reads(st, s.tasks[k].work, s.tasks[k].to.sid), st.servers)
  }

  lemma SplitIsLocal(st: Store, th: Threads, s: FP.State<Work>, k: nat, parts: seq<FP.Part<Work>>, i: nat)
    requires st.servers > 0 && EngineStep(st, th, s, FP.Split(k, parts)) && i < |parts|
    ensures AllLocal(Reads(st, parts[i].work, parts[i].to.sid), st.servers)
  {
    hide SplitsRows, SplitsPlan, Reads, AllLocal;
    var w := s.tasks[k].work;
    if n: nat :| SplitsRows(st, th, w, n, parts) {
      RowsSplitIsLocal(st, th, w, n, parts, i);
    } else {
      var mt: nat, slices, order :| SplitsPlan(st, th, w, s.tasks[k].to, mt, slices, order, parts);
      CopyIsLocal(st, th, w, s.tasks[k].to, mt, slices, order, parts, i);
    }
  }

  lemma RowsSplitIsLocal(st: Store, th: Threads, w: Work, n: nat, parts: seq<FP.Part<Work>>, i: nat)
    requires st.servers > 0 && SplitsRows(st, th, w, n, parts) && i < |parts|
    ensures AllLocal(Reads(st, parts[i].work, parts[i].to.sid), st.servers)
  {
    hide Advanced, Executable, Supported, Owner, Val, Share, Reads, AllLocal;
    var w' := Advanced(st, w, n);
    FirstBound(w');
    ShareIsLocal(st, parts[i].work, i, st.servers, w'.rows);
  }

  lemma CopyIsLocal(st: Store, th: Threads, w: Work, at: FP.Place, mt: nat, slices: seq<nat>, order: seq<(nat, nat)>,
                    parts: seq<FP.Part<Work>>, i: nat)
    requires st.servers > 0 && SplitsPlan(st, th, w, at, mt, slices, order, parts) && i < |parts|
    ensures AllLocal(Reads(st, parts[i].work, parts[i].to.sid), st.servers)
  {
    hide IsPlan, IsIndexPattern, SliceNo, NoWrap;
  }

  lemma StepKeepsLocal(c: Cluster, st: Store, g: set<Triple>, th: Threads, s: FP.State<Work>, step: FP.Step<Work>)
    requires st.servers > 0 && Sized(c) && Staffed(c, st, th) && ClusterStep(c, st, g, th, s, step) && PartsLocal(st, s)
    requires forall j: nat :: j in s.tasks ==> j < s.next
    ensures PartsLocal(st, FP.Apply(c, x => Value(st, x), s, step))
  {
    hide StartsRight, IsPlan, IsRest, Value, EngineStep, FP.Apply;
    var s' := FP.Apply(c, x => Value(st, x), s, step);
    forall k | k in s'.tasks && s'.tasks[k].Sent? && !FromConstant(s'.tasks[k].work)
      ensures AllLocal(Reads(st, s'.tasks[k].work, s'.tasks[k].to.sid), st.servers)
    {
      FP.SentAfter(c, x => Value(st, x), s, step, k);
      if step.Split? && !(k in s.tasks && s.tasks[k] == s'.tasks[k]) {
        var i :| 0 <= i < |step.parts| && s'.tasks[k].work == step.parts[i].work && s'.tasks[k].to == step.parts[i].to;
        SplitIsLocal(st, th, s, step.k, step.parts, i);
      }
    }
  }

  /** In every run, RDMA or not, what an engine begins a query with is read locally, except
      perhaps the constant that a plan starts from. */
  lemma {:induction false} RunPartsLocal(c: Cluster, st: Store, g: set<Triple>, th: Threads,
                                         states: seq<FP.State<Work>>, steps: seq<FP.Step<Work>>, i: nat)
    requires Holds(st, g) && ClusterRun(c, st, g, th, states, steps) && i < |states|
    ensures PartsLocal(st, states[i])
  {
    hide FP.Apply, ClusterStep, FP.CanStep, FP.Worth, FP.Inv, Value, Reads, AllLocal;
    if i > 0 {
      RunPartsLocal(c, st, g, th, states, steps, i - 1);
      assert ClusterStepAt(c, st, g, th, states, steps, i - 1);
      ClusterRunRight(c, st, g, th, states, steps, i - 1);
      FP.TasksBelow(c, x => Value(st, x), states[i - 1]);
      StepKeepsLocal(c, st, g, th, states[i - 1], steps[i - 1]);
    }
  }

  // ---- where a plan was sent ----

  /** Task k is the plan that step j submitted. */
  ghost predicate SubmittedBy(states: seq<FP.State<Work>>, steps: seq<FP.Step<Work>>, j: nat, k: nat, work: Work, to: FP.Place)
    requires |states| == |steps| + 1
  {
    j < |steps| && steps[j].Submit? && states[j].next == k && steps[j].work == work && steps[j].to == to
  }

  /** A plan under way was submitted by a proxy, to the place where it is. */
  lemma {:induction false} PlanWasSubmitted(c: Cluster, st: Store, g: set<Triple>, th: Threads,
                                            states: seq<FP.State<Work>>, steps: seq<FP.Step<Work>>, i: nat, k: nat) returns (j: nat)
    requires Holds(st, g) && ClusterRun(c, st, g, th, states, steps) && i < |states|
    requires k in states[i].tasks && states[i].tasks[k].Sent? && states[i].tasks[k].work.Plan?
    ensures j < i && SubmittedBy(states, steps, j, k, states[i].tasks[k].work, states[i].tasks[k].to)
  {
    hide FP.Apply, EngineStep, FP.CanStep, FP.Worth, FP.Inv, Value, StartsRight, IsPlan;
    if i == 0 {
      assert false;
    } else {
      assert ClusterStepAt(c, st, g, th, states, steps, i - 1);
      ClusterRunRight(c, st, g, th, states, steps, i - 1);
      FP.TasksBelow(c, x => Value(st, x), states[i - 1]);
      var s, step := states[i - 1], steps[i - 1];
      FP.SentAfter(c, x => Value(st, x), s, step, k);
      if step.Split? { PartsNoPlans(st, th, s, step.k, step.parts); }
      if k in s.tasks && s.tasks[k] == states[i].tasks[k] {
        j := PlanWasSubmitted(c, st, g, th, states, steps, i - 1, k);
      } else {
        j := i - 1;
      }
    }
  }

  lemma NextGrows(c: Cluster, st: Store, s: FP.State<Work>, step: FP.Step<Work>)
    requires Sized(c) && FP.CanStep(c, s, step)
    ensures s.next <= FP.Apply(c, x => Value(st, x), s, step).next
    ensures step.Submit? ==> s.next < FP.Apply(c, x => Value(st, x), s, step).next
  {
    hide FP.OwnerOf, FP.Counted, Value;
  }

  /** As long as a query submitted has not been handled it is what and where it was. */
  lemma {:induction false} PlanStays(c: Cluster, st: Store, g: set<Triple>, th: Threads,
                                     states: seq<FP.State<Work>>, steps: seq<FP.Step<Work>>, j: nat, i: nat)
    requires Holds(st, g) && ClusterRun(c, st, g, th, states, steps) && j < i < |states| && steps[j].Submit?
    ensures states[j].next < states[i].next
    ensures states[j].next in states[i].tasks && states[i].tasks[states[j].next].Sent? ==>
      SubmittedBy(states, steps, j, states[j].next, states[i].tasks[states[j].next].work, states[i].tasks[states[j].next].to)
    decreases i
  {
    hide FP.Apply, EngineStep, FP.CanStep, FP.Worth, FP.Inv, Value, StartsRight, IsPlan;
    var k, s, step := states[j].next, states[i - 1], steps[i - 1];
    assert ClusterStepAt(c, st, g, th, states, steps, i - 1);
    ClusterRunRight(c, st, g, th, states, steps, i - 1);
    FP.TasksBelow(c, x => Value(st, x), s);
    NextGrows(c, st, s, step);
    if j < i - 1 { PlanStays(c, st, g, th, states, steps, j, i - 1); }
    if k in states[i].tasks && states[i].tasks[k].Sent? {
      FP.SentAfter(c, x => Value(st, x), s, step, k);
    }
  }

  // ---- a cluster without RDMA ----

  /** Engines split after every pattern: what need_fork_join decides with several servers and no
      RDMA. */
  ghost predicate SplitsAlways(st: Store, th: Threads, s: FP.State<Work>, step: FP.Step<Work>)
    requires st.servers > 0
  {
    step.Finish? || step.Split? ==> step.k in s.tasks && OneThenSplit(st, th, s.tasks[step.k], step)
  }

  /** The request that an engine on server sid holds for a query. */
  ghost predicate Carries(req: EN.Request, sid: nat, w: Work)
    requires req.Valid() && req.step < |req.patterns|
    reads req
  {
    if req.cols != [] then w == Rest(req.cols, req.patterns[req.step..], req.rows)
    else if IsIndexPattern(req.patterns[0]) then w == Copy(req.patterns, req.mtFactor, sid, req.tid % req.mtFactor)
    else w == Plan(req.patterns)
  }

  /** What ExecutePatterns does with a request is a step of the cluster, co-run or not: it runs n
      patterns and finishes, or splits the rows and sends the tables of the parts.  Without RDMA
      and co-run n is 1.  Only plans fail to start that could not have been submitted. */
  method Handle(e: EN.Worker, req: EN.Request, c: CR.Corun, th: Threads, tid: nat, k: nat, ghost w: Work)
      returns (out: EN.Outcome, ghost n: nat)
    requires req.Valid() && req.Ready() && req.step < |req.patterns| && EN.BlankIsolated(e.st) && e.st.servers > 0
    requires (req.cols == [] ==> req.step == 0) && Carries(req, e.sid, w) && th.proxies <= tid && CR.CorunAhead(req, c)
    modifies req
    ensures out.Asserted? <==> (w.Plan? || w.Copy?) && !IsPlan(w.plan)
    ensures out.Undefined? ==> CR.JoinUndefined(req.patterns, c)
    ensures CR.Succeeded(out) ==>
      req.Valid() && n == req.step - old(req.step) && (e.st.servers > 1 && !e.useRdma && c.Off? ==> n == 1)
    ensures out.Finished? ==> Runs(e.st, th, w, n, FP.Finish(k, req.rows))
    ensures out.Forked? ==>
      && req.step < |req.patterns| && IsRest(Rest(req.cols, req.patterns[req.step..], req.rows))
      && var parts := PartsFor(e.st, Rest(req.cols, req.patterns[req.step..], req.rows), tid);
         && Runs(e.st, th, w, n, FP.Split(k, parts)) && |out.subs| == |parts|
         && forall i :: 0 <= i < |parts| ==> out.subs[i].table == Flat(parts[i].work.rows)
  {
    hide Advanced, Executable, Ordered, Explore, FinalCols, Value, Flat, V2c, EN.Ran, Share, EN.FirstRows, EN.Remaining, CR.CorunAhead, CR.JoinUndefined;
    ghost var start, cols0, rows0, pats := req.step, req.cols, req.rows, req.patterns;
    ExecutableIff(cols0, pats[start..]);
    assert cols0 == [] ==> pats[start..] == pats;
    out := CR.ExecutePatterns(e, req, c);
    if !CR.Succeeded(out) {
      n := 0;
      return;
    }
    ExecutableIff(req.cols, pats[req.step..]);
    n := req.step - start;
    if cols0 != [] {
      assert pats[start..][..n] == pats[start..req.step] && pats[start..][n..] == pats[req.step..];
      RequestAdvances(e.st, w, n, req.cols, req.rows);
    } else {
      NewRequestAdvances(e.st, e.sid, req.tid, req.mtFactor, w, n, req.cols, req.rows);
    }
  }

  /** A run of a cluster without RDMA. */
  ghost predicate OffRun(c: Cluster, st: Store, g: set<Triple>, th: Threads, states: seq<FP.State<Work>>, steps: seq<FP.Step<Work>>)
    requires st.servers > 0
  {
    ClusterRun(c, st, g, th, states, steps) && forall i :: 0 <= i < |steps| ==> SplitsAlways(st, th, states[i], steps[i])
  }

  /** The reads of one step of such a run: those of the one pattern that is run, if any. */
  ghost function StepReads(st: Store, th: Threads, s: FP.State<Work>, step: FP.Step<Work>): set<Read>
    requires st.servers > 0
  {
    if Handles(step) && step.k in s.tasks && s.tasks[step.k].Sent? && Runs(st, th, s.tasks[step.k].work, 1, step)
    then Reads(st, s.tasks[step.k].work, s.tasks[step.k].to.sid)
    else {}
  }

  ghost predicate Handles(step: FP.Step<Work>) { step.Finish? || step.Split? }

  ghost predicate RunIsLocal(st: Store, th: Threads, states: seq<FP.State<Work>>, steps: seq<FP.Step<Work>>)
    requires st.servers > 0 && |states| == |steps| + 1
  {
    forall i :: 0 <= i < |steps| ==> AllLocal(StepReads(st, th, states[i], steps[i]), st.servers)
  }

  /** The query that step j submits is handled by step i. */
  ghost predicate HandledAt(states: seq<FP.State<Work>>, steps: seq<FP.Step<Work>>, j: nat, i: nat)
    requires |states| == |steps| + 1
  {
    j < i < |steps| && Handles(steps[i]) && steps[i].k == states[j].next
  }

  ghost predicate SentToOwner(st: Store, step: FP.Step<Work>)
    requires st.servers > 0
  {
    step.Submit? && FromConstant(step.work) ==> step.to.sid == Owner(StartOf(step.work), st.servers)
  }

  lemma PlanIsRun(st: Store, th: Threads, t: FP.Task<Work>, step: FP.Step<Work>)
    requires st.servers > 0 && t.Sent? && FromConstant(t.work) && OneThenSplit(st, th, t, step)
    ensures Runs(st, th, t.work, 1, step)
  {
    hide Runs, IsPlan;
  }

  /** One step of a run without RDMA: its reads are local, unless it is the first of a plan from
      a constant; then they are exactly if the plan was submitted to the constant's owner. */
  lemma StepIsLocal(c: Cluster, st: Store, g: set<Triple>, th: Threads,
                     states: seq<FP.State<Work>>, steps: seq<FP.Step<Work>>, i: nat) returns (j: nat)
    requires Holds(st, g) && OffRun(c, st, g, th, states, steps) && i < |steps|
    ensures AllLocal(StepReads(st, th, states[i], steps[i]), st.servers)
      || (HandledAt(states, steps, j, i) && steps[j].Submit? && !SentToOwner(st, steps[j]))
  {
    hide FP.Apply, ClusterStep, FP.CanStep, FP.Worth, FP.Inv, Value, IsPlan, Owner, OneThenSplit, Runs;
    j := 0;
    var s, step := states[i], steps[i];
    if Handles(step) {
      assert SplitsAlways(st, th, s, step);
      RunPartsLocal(c, st, g, th, states, steps, i);
      if s.tasks[step.k].Sent? && FromConstant(s.tasks[step.k].work) {
        j := PlanWasSubmitted(c, st, g, th, states, steps, i, step.k);
      }
    }
  }

  lemma MisplacedIsRemote(c: Cluster, st: Store, g: set<Triple>, th: Threads,
                          states: seq<FP.State<Work>>, steps: seq<FP.Step<Work>>, j: nat, i: nat)
    requires Holds(st, g) && OffRun(c, st, g, th, states, steps) && HandledAt(states, steps, j, i)
    requires steps[j].Submit? && !SentToOwner(st, steps[j])
    ensures !AllLocal(StepReads(st, th, states[i], steps[i]), st.servers)
  {
    hide FP.Apply, ClusterStep, FP.CanStep, FP.Worth, FP.Inv, Value, IsPlan, Owner, Runs, ClusterStepAt, FP.Init;
    var s, step := states[i], steps[i];
    assert SplitsAlways(st, th, s, step);
    PlanStays(c, st, g, th, states, steps, j, i);
    var w := s.tasks[step.k].work;
    PlanIsRun(st, th, s.tasks[step.k], step);
    assert Edges(s.tasks[step.k].to.sid, StartOf(w)) in StepReads(st, th, s, step);
  }

  /** Without RDMA every read of a run is local exactly if every plan from a constant whose first
      pattern was run had been sent to the owner of that constant. */
  lemma RunLocalIff(c: Cluster, st: Store, g: set<Triple>, th: Threads, states: seq<FP.State<Work>>, steps: seq<FP.Step<Work>>)
    requires Holds(st, g) && OffRun(c, st, g, th, states, steps)
    ensures RunIsLocal(st, th, states, steps) <==>
      forall j: nat, i: nat :: HandledAt(states, steps, j, i) && steps[j].Submit? ==> SentToOwner(st, steps[j])
  {
    hide SplitsAlways, ClusterStepAt, FP.Init, SentToOwner, StepReads, AllLocal;
    if forall j: nat, i: nat :: HandledAt(states, steps, j, i) && steps[j].Submit? ==> SentToOwner(st, steps[j]) {
      forall i | 0 <= i < |steps|
        ensures AllLocal(StepReads(st, th, states[i], steps[i]), st.servers)
      {
        var j := StepIsLocal(c, st, g, th, states, steps, i);
      }
    } else {
      var j: nat, i: nat :| HandledAt(states, steps, j, i) && steps[j].Submit? && !SentToOwner(st, steps[j]);
      MisplacedIsRemote(c, st, g, th, states, steps, j, i);
    }
  }

  /** What a proxy does: the plan goes to the server that the id it starts from belongs to. */
  ghost predicate ByProxy(st: Store, step: FP.Step<Work>)
    requires st.servers > 0
  {
    step.Submit? && step.work.Plan? && IsPlan(step.work.plan) ==>
      (FirstPattern(step.work.plan); step.to.sid == Owner(step.work.plan[0].subj, st.servers))
  }

  /** So in every run without RDMA nothing is ever read from another server. */
  lemma NothingReadRemotely(c: Cluster, st: Store, g: set<Triple>, th: Threads, states: seq<FP.State<Work>>, steps: seq<FP.Step<Work>>)
    requires Holds(st, g) && OffRun(c, st, g, th, states, steps)
    requires forall j :: 0 <= j < |steps| ==> ByProxy(st, steps[j])
    ensures RunIsLocal(st, th, states, steps)
  {
    hide SplitsAlways, ClusterStepAt, FP.Init, RunIsLocal, IsPlan, Owner;
    RunLocalIff(c, st, g, th, states, steps);
    forall j: nat, i: nat | HandledAt(states, steps, j, i) && steps[j].Submit?
      ensures SentToOwner(st, steps[j])
    {
      assert ByProxy(st, steps[j]);
    }
  }
}
