/**
 * Blind queries (core/query.hpp, core/engine.hpp): answers carry the number of rows and no rows.
 *
 * The counts follow a run of the cluster step by step: a query that finishes reports its number
 * of rows, a waiting one adds up what its parts report.  In every run the number that reaches a
 * proxy is the number of solutions.
 */
module Blind {
  import opened Query
  import opened Coder
  import opened Distributed
  import FP = ForkProtocol

  /** The counts that waiting and answered tasks have, and those delivered to proxies. */
  datatype Counts = Counts(tasks: map<nat, nat>, answers: map<nat, nat>)

  function CountAt(n: Counts, k: nat): nat { if k in n.tasks then n.tasks[k] else 0 }

  /** What a step does to the counts, looking at no rows but those of the query it finishes. */
  function CountStep(s: FP.State<Work>, step: FP.Step<Work>, n: Counts): Counts
    requires step.Deliver? ==> step.k in s.tasks
  {
    match step
    case Submit(_, _, _) => n
    case Finish(k, rows) => n.(tasks := n.tasks[k := |rows|])
    case Split(k, _) => n.(tasks := n.tasks[k := 0])
    case Merge(k, parent) => n.(tasks := (n.tasks - {k})[parent := CountAt(n, parent) + CountAt(n, k)])
    case Deliver(k) => Counts(n.tasks - {k}, n.answers[s.tasks[k].pid := CountAt(n, k)])
  }

  ghost predicate Counted(s: FP.State<Work>, n: Counts) {
    && (forall k :: k in s.tasks && s.tasks[k].Waiting? ==> k in n.tasks && n.tasks[k] == |s.tasks[k].got|)
    && (forall k :: k in s.tasks && s.tasks[k].Answered? ==> k in n.tasks && n.tasks[k] == |s.tasks[k].rows|)
    && forall r :: r in s.answers ==> r in n.answers && n.answers[r] == |s.answers[r]|
  }

  lemma CountStepRight(c: Cluster, st: Store, s: FP.State<Work>, step: FP.Step<Work>, n: Counts)
    requires Sized(c) && FP.CanStep(c, s, step) && Counted(s, n) && forall j: nat :: j in s.tasks ==> j < s.next
    ensures Counted(FP.Apply(c, x => Value(st, x), s, step), CountStep(s, step, n))
  {
    hide FP.OwnerOf, FP.Counted, Value;
    match step
    case Submit(at, to, work) =>
    case Finish(k, rows) =>
    case Split(k, parts) =>
    case Merge(k, p) => MergeCounts(c, st, s, k, p, n);
    case Deliver(k) =>
  }

  lemma MergeCounts(c: Cluster, st: Store, s: FP.State<Work>, k: nat, p: nat, n: Counts)
    requires Sized(c) && FP.CanStep(c, s, FP.Merge(k, p)) && Counted(s, n)
    ensures Counted(FP.Apply(c, x => Value(st, x), s, FP.Merge(k, p)), CountStep(s, FP.Merge(k, p), n))
  {
    hide FP.OwnerOf, FP.Counted, FP.CanCount, Value;
    assert |s.tasks[p].got + s.tasks[k].rows| == n.tasks[p] + n.tasks[k];
  }

  /** The counts of a whole run. */
  ghost predicate CountsOf(states: seq<FP.State<Work>>, steps: seq<FP.Step<Work>>, counts: seq<Counts>) {
    && |counts| == |states| == |steps| + 1
    && forall i :: 0 <= i < |steps| ==> CountsNext(states[i], steps[i], counts[i], counts[i + 1])
  }

  ghost predicate CountsNext(s: FP.State<Work>, step: FP.Step<Work>, n: Counts, n': Counts) {
    (step.Deliver? ==> step.k in s.tasks) && n' == CountStep(s, step, n)
  }

  lemma {:induction false} RunIsCounted(c: Cluster, st: Store, g: set<Triple>, th: Threads,
                                        states: seq<FP.State<Work>>, steps: seq<FP.Step<Work>>, counts: seq<Counts>, i: nat)
    requires Holds(st, g) && ClusterRun(c, st, g, th, states, steps) && CountsOf(states, steps, counts) && i < |states|
    ensures Counted(states[i], counts[i])
  {
    hide FP.Apply, EngineStep, FP.CanStep, FP.Inv, Value, CountStep, Counted;
    if i == 0 {
      assert Counted(states[0], counts[0]) by { NothingCounted(c, states[0], counts[0]); }
    } else {
      RunIsCounted(c, st, g, th, states, steps, counts, i - 1);
      assert ClusterStepAt(c, st, g, th, states, steps, i - 1) && CountsNext(states[i - 1], steps[i - 1], counts[i - 1], counts[i]);
      ClusterRunRight(c, st, g, th, states, steps, i - 1);
      FP.TasksBelow(c, x => Value(st, x), states[i - 1]);
      CountStepRight(c, st, states[i - 1], steps[i - 1], counts[i - 1]);
    }
  }

  lemma NothingCounted(c: Cluster, s: FP.State<Work>, n: Counts)
    requires FP.Init(c, s)
    ensures Counted(s, n)
  {
  }

  /** In every run, whatever is split where and in whatever order messages arrive, a blind plan is
      answered with the number of its solutions. */
  lemma BlindAnswerIsNumber(c: Cluster, st: Store, g: set<Triple>, th: Threads, states: seq<FP.State<Work>>, steps: seq<FP.Step<Work>>,
                            counts: seq<Counts>, i: nat, j: nat, rows: seq<Row>)
    requires Holds(st, g) && ClusterRun(c, st, g, th, states, steps) && CountsOf(states, steps, counts)
    requires i < j < |states| && steps[i].Submit? && steps[i].work.Plan?
    requires IsSolutionTable(g, steps[i].work.plan, FinalCols([], steps[i].work.plan), rows)
    ensures steps[i].at in states[i].counters
    ensures var r := states[i].counters[steps[i].at];
      r in states[j].answers ==> r in counts[j].answers && counts[j].answers[r] == |rows|
  {
    hide FP.Apply, EngineStep, FP.CanStep, FP.Inv, Value, CountStep, Solution, ClusterStepAt, CountsNext, FP.Init;
    AnswerIsSolution(c, st, g, th, states, steps, i, j);
    RunIsCounted(c, st, g, th, states, steps, counts, j);
    var r := states[i].counters[steps[i].at];
    if r in states[j].answers {
      SameMembers(rows, states[j].answers[r]);
      assert |rows| == |multiset(rows)| == |multiset(states[j].answers[r])| == |states[j].answers[r]|;
    }
  }
}
