/**
 * The fork-join protocol between engines (core/engine.hpp).
 *
 * A query is numbered by the engine that runs it.  It either finishes and is answered, or it is
 * split: its entry waits in that engine's reply map while the parts travel to other engines.
 * An answer goes to the thread that the parent's number names; the last answer resumes the
 * parent, which is then answered itself.  Messages may take any time and overtake each other.
 *
 * W is what a query has to do and value(w) the rows it must produce.
 */
module ForkProtocol {
  import opened Query
  import opened Coder

  type Rows = multiset<Row>

  datatype Place = Place(sid: nat, tid: nat)

  /** A query between being sent and its answer being merged. */
  datatype Task<W> =
    | Sent(pid: nat, want: Rows, to: Place, work: W)
    | Waiting(pid: nat, want: Rows, at: Place, id: nat, cnt: nat, got: seq<Row>)
    | Answered(pid: nat, want: Rows, to: Place, rows: seq<Row>)

  /** Tasks by serial number, the threads' query counters, the queries of the proxies with what
      they should return, the answers delivered, and the numbers of the parents resumed. */
  datatype State<W> = State(
    next: nat,
    tasks: map<nat, Task<W>>,
    counters: map<Place, nat>,
    roots: map<nat, Rows>,
    answers: map<nat, seq<Row>>,
    resumed: seq<nat>)

  datatype Step<W> =
    | Submit(at: Place, to: Place, work: W)
    | Finish(k: nat, rows: seq<Row>)
    | Split(k: nat, parts: seq<Part<W>>)
    | Merge(k: nat, parent: nat)
    | Deliver(k: nat)

  datatype Part<W> = Part(to: Place, work: W)

  predicate IsPlace(c: Cluster, p: Place) { p.sid < c.servers && p.tid < c.threads }

  function OwnerOf(c: Cluster, qid: nat): Place
    requires Sized(c)
  {
    Place(SidOf(c, qid), TidOf(c, qid))
  }

  ghost function Total<W>(value: W -> Rows, parts: seq<Part<W>>): Rows {
    if parts == [] then multiset{} else Total(value, parts[..|parts| - 1]) + value(parts[|parts| - 1].work)
  }

  // ---- steps ----

  ghost predicate CanCount(c: Cluster, counters: map<Place, nat>, p: Place) {
    p in counters && counters[p] + Coder.Total(c) <= INT_MAX
  }

  function Counted(c: Cluster, counters: map<Place, nat>, p: Place): map<Place, nat>
    requires p in counters && Sized(c)
  {
    counters[p := NextQid(c, counters[p], p.sid, p.tid)]
  }

  /** The step can be taken. */
  ghost predicate CanStep<W>(c: Cluster, s: State<W>, step: Step<W>) {
    match step
    case Submit(at, to, work) => IsPlace(c, at) && IsPlace(c, to) && CanCount(c, s.counters, at)
    case Finish(k, rows) => k in s.tasks && s.tasks[k].Sent? && CanCount(c, s.counters, s.tasks[k].to)
    case Split(k, parts) =>
      && k in s.tasks && s.tasks[k].Sent? && CanCount(c, s.counters, s.tasks[k].to)
      && parts != [] && (forall i :: 0 <= i < |parts| ==> IsPlace(c, parts[i].to))
    case Merge(k, parent) =>
      && k in s.tasks && s.tasks[k].Answered?
      && parent in s.tasks && s.tasks[parent].Waiting?
      && s.tasks[parent].at == s.tasks[k].to && s.tasks[parent].id == s.tasks[k].pid
      && s.tasks[parent].cnt > 0
    case Deliver(k) => k in s.tasks && s.tasks[k].Answered? && s.tasks[k].pid in s.roots
  }

  /** What is finished or split stands for the same rows as before. */
  ghost predicate Worth<W>(value: W -> Rows, s: State<W>, step: Step<W>) {
    match step
    case Finish(k, rows) => k in s.tasks && s.tasks[k].Sent? ==> multiset(rows) == value(s.tasks[k].work)
    case Split(k, parts) => k in s.tasks && s.tasks[k].Sent? ==> Total(value, parts) == value(s.tasks[k].work)
    case _ => true
  }

  ghost predicate Enabled<W>(c: Cluster, value: W -> Rows, s: State<W>, step: Step<W>) {
    CanStep(c, s, step) && Worth(value, s, step)
  }

  function SentPart<W>(value: W -> Rows, pid: nat, part: Part<W>): Task<W> {
    Sent(pid, value(part.work), part.to, part.work)
  }

  function Spread<W>(value: W -> Rows, tasks: map<nat, Task<W>>, next: nat, pid: nat, parts: seq<Part<W>>): (t: map<nat, Task<W>>)
    ensures forall k :: k in t <==> k in tasks || next <= k < next + |parts|
    ensures forall k :: next <= k < next + |parts| ==> t[k] == SentPart(value, pid, parts[k - next])
    ensures forall k :: k in tasks && k < next ==> t[k] == tasks[k]
    decreases |parts|
  {
    if parts == [] then tasks
    else
      var n := |parts| - 1;
      Spread(value, tasks, next, pid, parts[..n])[next + n := SentPart(value, pid, parts[n])]
  }

  function Apply<W>(c: Cluster, value: W -> Rows, s: State<W>, step: Step<W>): State<W>
    requires Sized(c) && CanStep(c, s, step)
  {
    match step
    case Submit(at, to, work) =>
      var id := s.counters[at];
      s.(counters := Counted(c, s.counters, at), roots := s.roots[id := value(work)],
         tasks := s.tasks[s.next := Sent(id, value(work), to, work)], next := s.next + 1)
    case Finish(k, rows) =>
      var t := s.tasks[k];
      s.(counters := Counted(c, s.counters, t.to),
         tasks := s.tasks[k := Answered(t.pid, t.want, OwnerOf(c, t.pid), rows)])
    case Split(k, parts) =>
      var t := s.tasks[k];
      var id := s.counters[t.to];
      var waiting := s.tasks[k := Waiting(t.pid, t.want, t.to, id, |parts|, [])];
      s.(counters := Counted(c, s.counters, t.to), next := s.next + |parts|,
         tasks := Spread(value, waiting, s.next, id, parts))
    case Merge(k, parent) =>
      var p := s.tasks[parent];
      var rest := s.tasks - {k};
      var got := p.got + s.tasks[k].rows;
      if p.cnt > 1 then s.(tasks := rest[parent := p.(cnt := p.cnt - 1, got := got)])
      else s.(tasks := rest[parent := Answered(p.pid, p.want, OwnerOf(c, p.pid), got)], resumed := s.resumed + [p.id])
    case Deliver(k) =>
      s.(tasks := s.tasks - {k}, answers := s.answers[s.tasks[k].pid := s.tasks[k].rows])
  }

  /** A task on its way was there before, or has just been submitted or split off. */
  lemma SentAfter<W>(c: Cluster, value: W -> Rows, s: State<W>, step: Step<W>, k: nat)
    requires Sized(c) && CanStep(c, s, step) && (forall j: nat :: j in s.tasks ==> j < s.next)
    requires k in Apply(c, value, s, step).tasks && Apply(c, value, s, step).tasks[k].Sent?
    ensures var t := Apply(c, value, s, step).tasks[k];
      || (k in s.tasks && s.tasks[k] == t)
      || (step.Submit? && t.work == step.work && t.to == step.to && k == s.next)
      || (step.Split? && s.next <= k && exists i :: 0 <= i < |step.parts| && t.work == step.parts[i].work && t.to == step.parts[i].to)
  {
    hide OwnerOf, Counted, CanCount;
    match step
    case Submit(at, to, work) =>
    case Finish(j, rows) =>
    case Split(j, parts) => SplitSent(c, value, s, j, parts, k);
    case Merge(j, p) =>
    case Deliver(j) =>
  }

  lemma SplitSent<W>(c: Cluster, value: W -> Rows, s: State<W>, j: nat, parts: seq<Part<W>>, k: nat)
    requires Sized(c) && CanStep(c, s, Split(j, parts)) && (forall i: nat :: i in s.tasks ==> i < s.next)
    requires k in Apply(c, value, s, Split(j, parts)).tasks && Apply(c, value, s, Split(j, parts)).tasks[k].Sent?
    ensures var t := Apply(c, value, s, Split(j, parts)).tasks[k];
      (k in s.tasks && s.tasks[k] == t) || (s.next <= k && exists i :: 0 <= i < |parts| && t.work == parts[i].work && t.to == parts[i].to)
  {
    hide OwnerOf, Counted;
    var t := Apply(c, value, s, Split(j, parts)).tasks[k];
    if s.next <= k { assert t == SentPart(value, s.counters[s.tasks[j].to], parts[k - s.next]); }
  }

  // ---- what answers to a query ----

  ghost predicate Under<W>(tasks: map<nat, Task<W>>, id: nat, k: nat) { k in tasks && tasks[k].pid == id }

  /** How many tasks below serial n answer to query id. */
  ghost function Pending<W>(tasks: map<nat, Task<W>>, id: nat, n: nat): nat {
    if n == 0 then 0 else Pending(tasks, id, n - 1) + if Under(tasks, id, n - 1) then 1 else 0
  }

  /** The rows that those tasks owe it. */
  ghost function Owed<W>(tasks: map<nat, Task<W>>, id: nat, n: nat): Rows {
    if n == 0 then multiset{} else Owed(tasks, id, n - 1) + if Under(tasks, id, n - 1) then tasks[n - 1].want else multiset{}
  }

  /** Below n the same tasks answer to id, with the same rows owed. */
  ghost predicate SameUnder<W>(a: map<nat, Task<W>>, b: map<nat, Task<W>>, id: nat, n: nat) {
    forall k: nat :: k < n ==>
      (Under(a, id, k) <==> Under(b, id, k)) && (Under(a, id, k) ==> a[k].want == b[k].want)
  }

  lemma {:induction false} SameSums<W>(a: map<nat, Task<W>>, b: map<nat, Task<W>>, id: nat, n: nat)
    requires SameUnder(a, b, id, n)
    ensures Pending(a, id, n) == Pending(b, id, n) && Owed(a, id, n) == Owed(b, id, n)
  {
    if n > 0 { SameSums(a, b, id, n - 1); }
  }

  lemma {:induction false} NoneUnder<W>(a: map<nat, Task<W>>, id: nat, n: nat)
    requires forall k: nat :: k < n ==> !Under(a, id, k)
    ensures Pending(a, id, n) == 0 && Owed(a, id, n) == multiset{}
  {
    if n > 0 { NoneUnder(a, id, n - 1); }
  }

  lemma {:induction false} RemoveSums<W>(a: map<nat, Task<W>>, b: map<nat, Task<W>>, k: nat, id: nat, n: nat)
    requires k < n && Under(a, id, k) && !Under(b, id, k)
    requires forall j: nat :: j < n && j != k ==>
      (Under(a, id, j) <==> Under(b, id, j)) && (Under(a, id, j) ==> a[j].want == b[j].want)
    ensures Pending(a, id, n) == Pending(b, id, n) + 1 && Owed(a, id, n) == Owed(b, id, n) + a[k].want
  {
    if k == n - 1 { SameSums(a, b, id, n - 1); } else { RemoveSums(a, b, k, id, n - 1); }
  }

  lemma {:induction false} SomeUnder<W>(a: map<nat, Task<W>>, id: nat, n: nat) returns (k: nat)
    requires Pending(a, id, n) > 0
    ensures k < n && Under(a, id, k)
  {
    if Under(a, id, n - 1) { k := n - 1; } else { k := SomeUnder(a, id, n - 1); }
  }

  lemma TotalNext<W>(value: W -> Rows, parts: seq<Part<W>>, m: nat)
    requires 0 < m <= |parts|
    ensures Total(value, parts[..m]) == Total(value, parts[..m - 1]) + value(parts[m - 1].work)
  {
    assert parts[..m][..m - 1] == parts[..m - 1];
  }

  /** Parts sent under a new query number. */
  lemma {:induction false} PartSums<W>(value: W -> Rows, t: map<nat, Task<W>>, next: nat, id: nat, parts: seq<Part<W>>, m: nat)
    requires m <= |parts| && forall k: nat :: k < next ==> !Under(t, id, k)
    requires forall k: nat :: next <= k < next + |parts| ==> k in t && t[k] == SentPart(value, id, parts[k - next])
    ensures Pending(t, id, next + m) == m
    ensures Owed(t, id, next + m) == Total(value, parts[..m])
  {
    if m == 0 {
      NoneUnder(t, id, next);
    } else {
      PartSums(value, t, next, id, parts, m - 1);
      var k := next + m - 1;
      assert t[k] == SentPart(value, id, parts[m - 1]) && Under(t, id, k);
      TotalNext(value, parts, m);
      assert Pending(t, id, k + 1) == Pending(t, id, k) + 1;
      assert Owed(t, id, k + 1) == Owed(t, id, k) + value(parts[m - 1].work);
    }
  }

  // ---- the invariant ----

  /** A number that has been given out. */
  ghost predicate Used(c: Cluster, counters: map<Place, nat>, id: nat)
    requires Sized(c)
  {
    OwnerOf(c, id) in counters && id < counters[OwnerOf(c, id)]
  }

  ghost predicate CountersOk(c: Cluster, counters: map<Place, nat>)
    requires Sized(c)
  {
    forall p :: (p in counters <==> IsPlace(c, p)) && (p in counters ==> GivenBy(c, counters[p], p.sid, p.tid))
  }

  ghost predicate TaskOk<W>(c: Cluster, value: W -> Rows, s: State<W>, k: nat)
    requires Sized(c) && k in s.tasks
  {
    var t := s.tasks[k];
    match t
    case Sent(pid, want, to, work) => want == value(work) && IsPlace(c, to)
    case Waiting(pid, want, at, id, cnt, got) =>
      && OwnerOf(c, id) == at && Used(c, s.counters, id) && id !in s.roots && id !in s.resumed
      && cnt > 0 && cnt == Pending(s.tasks, id, s.next)
      && want == multiset(got) + Owed(s.tasks, id, s.next)
      && forall j: nat :: Under(s.tasks, id, j) ==> j > k
    case Answered(pid, want, to, rows) => want == multiset(rows) && to == OwnerOf(c, pid)
  }

  /** Every task answers to a proxy's query or to a waiting one. */
  ghost predicate Parented<W>(s: State<W>, k: nat)
    requires k in s.tasks
  {
    s.tasks[k].pid in s.roots || exists j: nat :: IsParent(s.tasks, s.tasks[k].pid, j)
  }

  ghost predicate IsParent<W>(tasks: map<nat, Task<W>>, id: nat, j: nat) {
    j in tasks && tasks[j].Waiting? && tasks[j].id == id
  }

  /** A proxy's query is on its way exactly until it has been answered, with the right rows. */
  ghost predicate RootOk<W>(c: Cluster, s: State<W>, r: nat)
    requires Sized(c) && r in s.roots
  {
    && Used(c, s.counters, r)
    && Pending(s.tasks, r, s.next) == (if r in s.answers then 0 else 1)
    && Owed(s.tasks, r, s.next) == (if r in s.answers then multiset{} else s.roots[r])
    && (r in s.answers ==> multiset(s.answers[r]) == s.roots[r])
  }

  ghost predicate TasksOk<W>(c: Cluster, value: W -> Rows, s: State<W>)
    requires Sized(c)
  {
    forall k :: k in s.tasks ==> k < s.next && TaskOk(c, value, s, k)
  }

  ghost predicate AllParented<W>(s: State<W>) { forall k :: k in s.tasks ==> Parented(s, k) }

  ghost predicate OneParent<W>(s: State<W>) {
    forall id: nat, j: nat, k: nat :: IsParent(s.tasks, id, j) && IsParent(s.tasks, id, k) ==> j == k
  }

  ghost predicate RootsOk<W>(c: Cluster, s: State<W>)
    requires Sized(c)
  {
    (forall r :: r in s.roots ==> RootOk(c, s, r)) && forall r :: r in s.answers ==> r in s.roots
  }

  ghost predicate ResumedOk<W>(c: Cluster, s: State<W>)
    requires Sized(c)
  {
    && Distinct(s.resumed)
    && forall i :: 0 <= i < |s.resumed| ==> Used(c, s.counters, s.resumed[i]) && s.resumed[i] !in s.roots
  }

  ghost predicate Inv<W>(c: Cluster, value: W -> Rows, s: State<W>) {
    && Sized(c) && CountersOk(c, s.counters)
    && TasksOk(c, value, s) && AllParented(s) && OneParent(s) && RootsOk(c, s) && ResumedOk(c, s)
  }

  // ---- every step keeps it ----

  /** Giving out a number: it is new, it names its giver, and nothing used becomes unused. */
  lemma CountStep(c: Cluster, counters: map<Place, nat>, p: Place)
    requires Sized(c) && CountersOk(c, counters) && CanCount(c, counters, p)
    ensures CountersOk(c, Counted(c, counters, p)) && OwnerOf(c, counters[p]) == p
    ensures !Used(c, counters, counters[p]) && Used(c, Counted(c, counters, p), counters[p])
    ensures forall id: nat :: Used(c, counters, id) ==> Used(c, Counted(c, counters, p), id)
  {
    hide SidOf, TidOf, GivenBy, NextQid, Coder.Total;
    DecodeOwner(c, counters[p], p.sid, p.tid);
    NextGivenBy(c, counters[p], p.sid, p.tid);
  }

  /** From s to s' nothing changes for query id. */
  ghost predicate SameFor<W>(s: State<W>, s': State<W>, id: nat) {
    && s.next <= s'.next
    && SameUnder(s.tasks, s'.tasks, id, s.next)
    && forall k: nat :: s.next <= k < s'.next ==> !Under(s'.tasks, id, k)
  }

  lemma {:induction false} SumsPast<W>(t: map<nat, Task<W>>, id: nat, n: nat, n': nat)
    requires n <= n' && forall k: nat :: n <= k < n' ==> !Under(t, id, k)
    ensures Pending(t, id, n') == Pending(t, id, n) && Owed(t, id, n') == Owed(t, id, n)
  {
    if n < n' { SumsPast(t, id, n, n' - 1); }
  }

  lemma SameForSums<W>(s: State<W>, s': State<W>, id: nat)
    requires SameFor(s, s', id)
    ensures Pending(s.tasks, id, s.next) == Pending(s'.tasks, id, s'.next)
    ensures Owed(s.tasks, id, s.next) == Owed(s'.tasks, id, s'.next)
  {
    SameSums(s.tasks, s'.tasks, id, s.next);
    SumsPast(s'.tasks, id, s.next, s'.next);
  }

  ghost predicate MoreUsed<W>(c: Cluster, s: State<W>, s': State<W>)
    requires Sized(c)
  {
    forall id: nat :: Used(c, s.counters, id) ==> Used(c, s'.counters, id)
  }

  /** An untouched task stays in order. */
  lemma TaskKept<W>(c: Cluster, value: W -> Rows, s: State<W>, s': State<W>, k: nat)
    requires Sized(c) && k in s.tasks && k in s'.tasks && s.tasks[k] == s'.tasks[k] && TaskOk(c, value, s, k)
    requires MoreUsed(c, s, s')
    requires forall j: nat :: j in s'.tasks ==> j < s'.next
    requires s.tasks[k].Waiting? ==> SameFor(s, s', s.tasks[k].id) && s.tasks[k].id !in s'.roots && s.tasks[k].id !in s'.resumed && k < s.next
    ensures TaskOk(c, value, s', k)
  {
    hide OwnerOf, Used;
    if s.tasks[k].Waiting? {
      var id := s.tasks[k].id;
      SameForSums(s, s', id);
      forall j: nat | Under(s'.tasks, id, j)
        ensures j > k
      {
        assert j < s.next ==> Under(s.tasks, id, j);
      }
    }
  }

  lemma RootKept<W>(c: Cluster, s: State<W>, s': State<W>, r: nat)
    requires Sized(c) && r in s.roots && RootOk(c, s, r) && MoreUsed(c, s, s') && SameFor(s, s', r)
    requires r in s'.roots && s'.roots[r] == s.roots[r]
    requires r in s'.answers <==> r in s.answers
    requires r in s.answers ==> s'.answers[r] == s.answers[r]
    ensures RootOk(c, s', r)
  {
    hide OwnerOf, Used;
    SameForSums(s, s', r);
  }

  /** The number of a waiting query or of a proxy's query has been given out. */
  lemma PidUsed<W>(c: Cluster, value: W -> Rows, s: State<W>, k: nat)
    requires Inv(c, value, s) && k in s.tasks
    ensures Used(c, s.counters, s.tasks[k].pid)
  {
    hide OwnerOf, Used;
  }

  /** A parent stays one, unless nothing answers to it any more. */
  ghost predicate ParentStays<W>(a: map<nat, Task<W>>, b: map<nat, Task<W>>, id: nat, j: nat) {
    IsParent(a, id, j) ==> IsParent(b, id, j) || forall k: nat :: !Under(b, id, k)
  }

  /** Tasks keep their parents: those still there, and new ones under a root or under task p. */
  lemma ParentedKept<W>(s: State<W>, s': State<W>, p: nat)
    requires AllParented(s)
    requires forall r :: r in s.roots ==> r in s'.roots
    requires forall k :: k in s'.tasks ==>
      (k in s.tasks && s'.tasks[k].pid == s.tasks[k].pid) || s'.tasks[k].pid in s'.roots || IsParent(s'.tasks, s'.tasks[k].pid, p)
    requires forall id: nat, j: nat :: ParentStays(s.tasks, s'.tasks, id, j)
    ensures AllParented(s')
  {
    forall k | k in s'.tasks
      ensures Parented(s', k)
    {
      var pid := s'.tasks[k].pid;
      if pid !in s'.roots && !IsParent(s'.tasks, pid, p) {
        assert Parented(s, k);
        var j: nat :| IsParent(s.tasks, pid, j);
        assert ParentStays(s.tasks, s'.tasks, pid, j);
        assert Under(s'.tasks, pid, k);
        assert IsParent(s'.tasks, pid, j);
      }
    }
  }

  /** At most task p starts waiting, under a number that no other task has. */
  lemma OneParentKept<W>(s: State<W>, s': State<W>, p: nat, id': nat)
    requires OneParent(s)
    requires forall id: nat, j: nat :: IsParent(s'.tasks, id, j) ==> IsParent(s.tasks, id, j) || (id == id' && j == p)
    requires forall j: nat :: j != p ==> !IsParent(s'.tasks, id', j)
    ensures OneParent(s')
  {
  }

  lemma NewIdUnused<W>(c: Cluster, value: W -> Rows, s: State<W>, id: nat)
    requires Inv(c, value, s) && !Used(c, s.counters, id)
    ensures id !in s.roots && id !in s.resumed
    ensures forall k: nat :: !Under(s.tasks, id, k) && !IsParent(s.tasks, id, k)
  {
    hide OwnerOf, Used, Pending, Owed;
    forall k: nat
      ensures !Under(s.tasks, id, k) && !IsParent(s.tasks, id, k)
    {
      if k in s.tasks { PidUsed(c, value, s, k); }
    }
  }

  ghost predicate Submitted<W>(c: Cluster, value: W -> Rows, s: State<W>, s': State<W>, id: nat, to: Place, work: W)
    requires Sized(c)
  {
    && s'.next == s.next + 1 && s'.tasks == s.tasks[s.next := Sent(id, value(work), to, work)] && IsPlace(c, to)
    && s'.roots == s.roots[id := value(work)] && s'.answers == s.answers && s'.resumed == s.resumed
    && MoreUsed(c, s, s') && !Used(c, s.counters, id) && Used(c, s'.counters, id) && CountersOk(c, s'.counters)
  }

  lemma SubmitInv<W>(c: Cluster, value: W -> Rows, s: State<W>, s': State<W>, id: nat, to: Place, work: W)
    requires Inv(c, value, s) && Submitted(c, value, s, s', id, to, work)
    ensures Inv(c, value, s')
  {
    hide OwnerOf, Used, CountersOk, TasksOk, RootsOk, ResumedOk, AllParented, OneParent;
    NewIdUnused(c, value, s, id);
    SubmitTasks(c, value, s, s', id, to, work);
    SubmitRoots(c, value, s, s', id, to, work);
    SubmitParents(c, value, s, s', id, to, work);
    ResumedKept(c, s, s', id);
  }

  lemma ResumedKept<W>(c: Cluster, s: State<W>, s': State<W>, id: nat)
    requires Sized(c) && ResumedOk(c, s) && MoreUsed(c, s, s') && s'.resumed == s.resumed
    requires id !in s.resumed && forall r :: r in s'.roots ==> r in s.roots || r == id
    ensures ResumedOk(c, s')
  {
    hide Used;
  }

  lemma SubmitParents<W>(c: Cluster, value: W -> Rows, s: State<W>, s': State<W>, id: nat, to: Place, work: W)
    requires Inv(c, value, s) && Submitted(c, value, s, s', id, to, work)
    requires forall k: nat :: !IsParent(s.tasks, id, k)
    ensures AllParented(s') && OneParent(s')
  {
    hide Used, CountersOk, TasksOk, RootsOk, ResumedOk, AllParented, OneParent;
    assert forall x: nat, j: nat :: IsParent(s.tasks, x, j) ==> j < s.next by { ParentBelow(c, value, s); }
    forall x: nat, j: nat
      ensures IsParent(s'.tasks, x, j) <==> IsParent(s.tasks, x, j)
    {
    }
    ParentedKept(s, s', 0);
    OneParentKept(s, s', 0, id);
  }

  lemma ParentBelow<W>(c: Cluster, value: W -> Rows, s: State<W>)
    requires Inv(c, value, s)
    ensures forall x: nat, j: nat :: IsParent(s.tasks, x, j) ==> j < s.next
  {
  }

  lemma SubmitTasks<W>(c: Cluster, value: W -> Rows, s: State<W>, s': State<W>, id: nat, to: Place, work: W)
    requires Inv(c, value, s) && Submitted(c, value, s, s', id, to, work)
    requires forall k: nat :: !Under(s.tasks, id, k) && !IsParent(s.tasks, id, k)
    ensures TasksOk(c, value, s')
  {
    hide OwnerOf, Used, Pending, Owed, CountersOk, RootsOk, AllParented, ResumedOk;
    forall k | k in s'.tasks
      ensures k < s'.next && TaskOk(c, value, s', k)
    {
      if k != s.next { TaskKept(c, value, s, s', k); }
    }
  }

  lemma SubmitRoots<W>(c: Cluster, value: W -> Rows, s: State<W>, s': State<W>, id: nat, to: Place, work: W)
    requires Inv(c, value, s) && Submitted(c, value, s, s', id, to, work)
    requires id !in s.roots && forall k: nat :: !Under(s.tasks, id, k)
    ensures RootsOk(c, s')
  {
    hide OwnerOf, Used, Pending, Owed, CountersOk, TasksOk, AllParented, ResumedOk, OneParent, SameFor;
    forall r | r in s'.roots
      ensures RootOk(c, s', r)
    {
      if r != id {
        SubmitSame(c, value, s, s', id, to, work, r);
        RootKept(c, s, s', r);
      } else {
        assert forall k: nat :: k < s.next ==> Under(s'.tasks, id, k) ==> Under(s.tasks, id, k);
        SubmitRoot(value, s, s', id, to, work);
      }
    }
  }

  lemma SubmitSame<W>(c: Cluster, value: W -> Rows, s: State<W>, s': State<W>, id: nat, to: Place, work: W, x: nat)
    requires Sized(c) && Submitted(c, value, s, s', id, to, work) && x != id
    ensures SameFor(s, s', x)
  {
    hide Used, CountersOk, MoreUsed;
  }

  lemma SubmitRoot<W>(value: W -> Rows, s: State<W>, s': State<W>, id: nat, to: Place, work: W)
    requires forall k: nat :: k < s.next ==> !Under(s'.tasks, id, k)
    requires s'.next == s.next + 1 && s.next in s'.tasks && s'.tasks[s.next] == Sent(id, value(work), to, work)
    ensures Pending(s'.tasks, id, s'.next) == 1 && Owed(s'.tasks, id, s'.next) == value(work)
  {
    NoneUnder(s'.tasks, id, s.next);
    assert Under(s'.tasks, id, s.next);
  }

  // finishing a task

  ghost predicate Finished<W>(c: Cluster, value: W -> Rows, s: State<W>, s': State<W>, k: nat, rows: seq<Row>)
    requires Sized(c)
  {
    && k in s.tasks && s.tasks[k].Sent? && multiset(rows) == value(s.tasks[k].work)
    && s'.next == s.next && s'.roots == s.roots && s'.answers == s.answers && s'.resumed == s.resumed
    && s'.tasks == s.tasks[k := Answered(s.tasks[k].pid, s.tasks[k].want, OwnerOf(c, s.tasks[k].pid), rows)]
    && MoreUsed(c, s, s') && CountersOk(c, s'.counters)
  }

  lemma FinishInv<W>(c: Cluster, value: W -> Rows, s: State<W>, s': State<W>, k: nat, rows: seq<Row>)
    requires Inv(c, value, s) && Finished(c, value, s, s', k, rows)
    ensures Inv(c, value, s')
  {
    hide OwnerOf, Used, CountersOk, TasksOk, RootsOk, ResumedOk, AllParented, OneParent;
    FinishTasks(c, value, s, s', k, rows);
    FinishParents(c, value, s, s', k, rows);
    assert ResumedOk(c, s') by { ResumedSame(c, s, s'); }
  }

  lemma ResumedSame<W>(c: Cluster, s: State<W>, s': State<W>)
    requires Sized(c) && ResumedOk(c, s) && MoreUsed(c, s, s') && s'.resumed == s.resumed && s'.roots == s.roots
    ensures ResumedOk(c, s')
  {
    hide Used;
  }

  lemma FinishTasks<W>(c: Cluster, value: W -> Rows, s: State<W>, s': State<W>, k: nat, rows: seq<Row>)
    requires Inv(c, value, s) && Finished(c, value, s, s', k, rows)
    ensures TasksOk(c, value, s') && RootsOk(c, s')
  {
    hide OwnerOf, Used, Pending, Owed, CountersOk, AllParented, ResumedOk;
    forall id: nat
      ensures SameFor(s, s', id)
    {
    }
    forall j | j in s'.tasks
      ensures j < s'.next && TaskOk(c, value, s', j)
    {
      if j != k { TaskKept(c, value, s, s', j); }
    }
    forall r | r in s'.roots
      ensures RootOk(c, s', r)
    {
      RootKept(c, s, s', r);
    }
  }

  lemma FinishParents<W>(c: Cluster, value: W -> Rows, s: State<W>, s': State<W>, k: nat, rows: seq<Row>)
    requires Inv(c, value, s) && Finished(c, value, s, s', k, rows)
    ensures AllParented(s') && OneParent(s')
  {
    hide Used, OwnerOf, CountersOk, TasksOk, RootsOk, ResumedOk, AllParented, OneParent;
    forall x: nat, j: nat
      ensures IsParent(s'.tasks, x, j) <==> IsParent(s.tasks, x, j)
    {
    }
    ParentedKept(s, s', 0);
    SameParents(s, s');
  }

  lemma SameParents<W>(s: State<W>, s': State<W>)
    requires OneParent(s)
    requires forall x: nat, j: nat :: IsParent(s'.tasks, x, j) ==> IsParent(s.tasks, x, j)
    ensures OneParent(s')
  {
  }

  // splitting a task

  ghost predicate WasSplit<W>(c: Cluster, value: W -> Rows, s: State<W>, s': State<W>, k: nat, id: nat, parts: seq<Part<W>>)
    requires Sized(c)
  {
    && k in s.tasks && s.tasks[k].Sent? && parts != [] && Total(value, parts) == value(s.tasks[k].work)
    && (forall i :: 0 <= i < |parts| ==> IsPlace(c, parts[i].to))
    && s'.next == s.next + |parts| && s'.roots == s.roots && s'.answers == s.answers && s'.resumed == s.resumed
    && (forall j: nat :: j in s'.tasks <==> j in s.tasks || s.next <= j < s'.next)
    && (forall j: nat :: j in s.tasks && j != k && j < s.next ==> s'.tasks[j] == s.tasks[j])
    && (forall j: nat :: s.next <= j < s'.next ==> s'.tasks[j] == SentPart(value, id, parts[j - s.next]))
    && k < s.next && s'.tasks[k] == Waiting(s.tasks[k].pid, s.tasks[k].want, s.tasks[k].to, id, |parts|, [])
    && OwnerOf(c, id) == s.tasks[k].to && !Used(c, s.counters, id) && Used(c, s'.counters, id)
    && MoreUsed(c, s, s') && CountersOk(c, s'.counters)
  }

  lemma SplitInv<W>(c: Cluster, value: W -> Rows, s: State<W>, s': State<W>, k: nat, id: nat, parts: seq<Part<W>>)
    requires Inv(c, value, s) && WasSplit(c, value, s, s', k, id, parts)
    ensures Inv(c, value, s')
  {
    hide OwnerOf, Used, CountersOk, TasksOk, RootsOk, ResumedOk, AllParented, OneParent, Total;
    NewIdUnused(c, value, s, id);
    SplitSame(c, value, s, s', k, id, parts);
    SplitTasks(c, value, s, s', k, id, parts);
    SplitRoots(c, value, s, s', k, id, parts);
    SplitParents(c, value, s, s', k, id, parts);
    ResumedSame(c, s, s');
  }

  lemma SplitSame<W>(c: Cluster, value: W -> Rows, s: State<W>, s': State<W>, k: nat, id: nat, parts: seq<Part<W>>)
    requires Inv(c, value, s) && WasSplit(c, value, s, s', k, id, parts)
    requires forall j: nat :: !Under(s.tasks, id, j)
    ensures forall x: nat :: x != id ==> SameFor(s, s', x)
    ensures Pending(s'.tasks, id, s'.next) == |parts|
    ensures Owed(s'.tasks, id, s'.next) == value(s.tasks[k].work)
  {
    hide OwnerOf, Used, Pending, Owed, CountersOk, TasksOk, AllParented, RootsOk, ResumedOk, Total;
    forall j: nat | j < s.next
      ensures !Under(s'.tasks, id, j)
    {
      assert !Under(s.tasks, id, j);
    }
    PartSums(value, s'.tasks, s.next, id, parts, |parts|);
    assert parts[..|parts|] == parts;
  }

  lemma SplitTasks<W>(c: Cluster, value: W -> Rows, s: State<W>, s': State<W>, k: nat, id: nat, parts: seq<Part<W>>)
    requires Inv(c, value, s) && WasSplit(c, value, s, s', k, id, parts)
    requires forall j: nat :: !Under(s.tasks, id, j) && !IsParent(s.tasks, id, j)
    requires id !in s.roots && id !in s.resumed
    requires forall x: nat :: x != id ==> SameFor(s, s', x)
    requires Pending(s'.tasks, id, s'.next) == |parts| && Owed(s'.tasks, id, s'.next) == value(s.tasks[k].work)
    ensures TasksOk(c, value, s')
  {
    hide OwnerOf, Used, Pending, Owed, CountersOk, AllParented, RootsOk, ResumedOk, Total, SameFor;
    forall j | j in s'.tasks
      ensures j < s'.next && TaskOk(c, value, s', j)
    {
      if j >= s.next {
        assert s'.tasks[j] == SentPart(value, id, parts[j - s.next]);
      } else if j != k {
        assert !IsParent(s.tasks, id, j);
        TaskKept(c, value, s, s', j);
      } else {
        forall x: nat | Under(s'.tasks, id, x)
          ensures x > k
        {
          assert !Under(s.tasks, id, x);
        }
      }
    }
  }

  lemma SplitRoots<W>(c: Cluster, value: W -> Rows, s: State<W>, s': State<W>, k: nat, id: nat, parts: seq<Part<W>>)
    requires Inv(c, value, s) && WasSplit(c, value, s, s', k, id, parts) && id !in s.roots
    requires forall x: nat :: x != id ==> SameFor(s, s', x)
    ensures RootsOk(c, s')
  {
    hide OwnerOf, Used, Pending, Owed, CountersOk, AllParented, TasksOk, ResumedOk, Total, SameFor;
    forall r | r in s'.roots
      ensures RootOk(c, s', r)
    {
      RootKept(c, s, s', r);
    }
  }

  lemma SplitParents<W>(c: Cluster, value: W -> Rows, s: State<W>, s': State<W>, k: nat, id: nat, parts: seq<Part<W>>)
    requires Inv(c, value, s) && WasSplit(c, value, s, s', k, id, parts)
    requires forall j: nat :: !IsParent(s.tasks, id, j)
    ensures AllParented(s') && OneParent(s')
  {
    hide Used, OwnerOf, CountersOk, TasksOk, RootsOk, ResumedOk, AllParented, OneParent, Total;
    ParentBelow(c, value, s);
    TasksBelow(c, value, s);
    forall x: nat, j: nat
      ensures IsParent(s'.tasks, x, j) <==> IsParent(s.tasks, x, j) || (x == id && j == k)
    {
      if s.next <= j < s'.next { assert s'.tasks[j] == SentPart(value, id, parts[j - s.next]); }
    }
    ParentedKept(s, s', k);
    OneParentKept(s, s', k, id);
  }

  lemma TasksBelow<W>(c: Cluster, value: W -> Rows, s: State<W>)
    requires Inv(c, value, s)
    ensures forall j: nat :: j in s.tasks ==> j < s.next
  {
  }

  // merging an answer into its waiting parent

  /** Task k, an answer, is gone; its parent p got its rows. */
  ghost predicate Merged<W>(c: Cluster, s: State<W>, s': State<W>, k: nat, p: nat)
    requires Sized(c)
  {
    && k in s.tasks && s.tasks[k].Answered? && IsParent(s.tasks, s.tasks[k].pid, p)
    && s'.next == s.next && s'.roots == s.roots && s'.answers == s.answers && s'.counters == s.counters
    && (forall j: nat :: j in s'.tasks <==> j in s.tasks && j != k)
    && (forall j: nat :: j in s'.tasks && j != p ==> s'.tasks[j] == s.tasks[j])
    && var q, got := s.tasks[p], s.tasks[p].got + s.tasks[k].rows;
       if q.cnt > 1 then
         s'.tasks[p] == q.(cnt := q.cnt - 1, got := got) && s'.resumed == s.resumed
       else
         s'.tasks[p] == Answered(q.pid, q.want, OwnerOf(c, q.pid), got) && s'.resumed == s.resumed + [q.id]
  }

  lemma MergeInv<W>(c: Cluster, value: W -> Rows, s: State<W>, s': State<W>, k: nat, p: nat)
    requires Inv(c, value, s) && Merged(c, s, s', k, p)
    ensures Inv(c, value, s')
  {
    hide OwnerOf, Used, CountersOk, TasksOk, RootsOk, ResumedOk, AllParented, OneParent, Merged;
    MergeFacts(c, value, s, s', k, p);
    MergeSame(c, value, s, s', k, p);
    MergeTasks(c, value, s, s', k, p);
    MergeRoots(c, value, s, s', k, p);
    MergeParents(c, value, s, s', k, p);
    MergeResumed(c, value, s, s', k, p);
  }

  lemma MergeFacts<W>(c: Cluster, value: W -> Rows, s: State<W>, s': State<W>, k: nat, p: nat)
    requires Inv(c, value, s) && Merged(c, s, s', k, p)
    ensures s'.counters == s.counters && s.tasks[p].Waiting? && s.tasks[p].id == s.tasks[k].pid && k < s.next && p < s.next
    ensures s.tasks[p].id !in s.roots && s.tasks[p].id !in s.resumed
    ensures s.tasks[p].cnt == Pending(s.tasks, s.tasks[p].id, s.next) > 0
    ensures s.tasks[p].want == multiset(s.tasks[p].got) + Owed(s.tasks, s.tasks[p].id, s.next)
    ensures s.tasks[k].want == multiset(s.tasks[k].rows)
  {
    hide OwnerOf, Used, CountersOk, RootsOk, ResumedOk, AllParented, OneParent, Pending, Owed;
  }

  lemma MergeSame<W>(c: Cluster, value: W -> Rows, s: State<W>, s': State<W>, k: nat, p: nat)
    requires Sized(c) && Merged(c, s, s', k, p) && k < s.next
    ensures forall x: nat :: x != s.tasks[k].pid ==> SameFor(s, s', x)
    ensures Pending(s.tasks, s.tasks[k].pid, s.next) == Pending(s'.tasks, s.tasks[k].pid, s'.next) + 1
    ensures Owed(s.tasks, s.tasks[k].pid, s.next) == Owed(s'.tasks, s.tasks[k].pid, s'.next) + s.tasks[k].want
  {
    hide OwnerOf, Pending, Owed;
    forall x: nat | x != s.tasks[k].pid
      ensures SameFor(s, s', x)
    {
    }
    RemoveSums(s.tasks, s'.tasks, k, s.tasks[k].pid, s.next);
  }

  lemma {:induction false} NonePending<W>(t: map<nat, Task<W>>, id: nat, n: nat)
    requires Pending(t, id, n) == 0
    ensures Owed(t, id, n) == multiset{} && forall k: nat :: k < n ==> !Under(t, id, k)
  {
    if n > 0 { NonePending(t, id, n - 1); }
  }

  lemma MergeTasks<W>(c: Cluster, value: W -> Rows, s: State<W>, s': State<W>, k: nat, p: nat)
    requires Inv(c, value, s) && Merged(c, s, s', k, p) && p < s.next
    requires forall x: nat :: x != s.tasks[k].pid ==> SameFor(s, s', x)
    requires Pending(s.tasks, s.tasks[k].pid, s.next) == Pending(s'.tasks, s.tasks[k].pid, s'.next) + 1
    requires Owed(s.tasks, s.tasks[k].pid, s.next) == Owed(s'.tasks, s.tasks[k].pid, s'.next) + s.tasks[k].want
    ensures TasksOk(c, value, s')
  {
    hide OwnerOf, Used, Pending, Owed, CountersOk, AllParented, RootsOk, ResumedOk, SameFor;
    forall j | j in s'.tasks
      ensures j < s'.next && TaskOk(c, value, s', j)
    {
      if j == p {
        MergeParent(c, value, s, s', k, p);
      } else {
        assert IsParent(s.tasks, s.tasks[k].pid, j) ==> j == p;
        TaskKept(c, value, s, s', j);
      }
    }
  }

  lemma MergeParent<W>(c: Cluster, value: W -> Rows, s: State<W>, s': State<W>, k: nat, p: nat)
    requires Sized(c) && Merged(c, s, s', k, p) && p < s.next && TaskOk(c, value, s, p) && TaskOk(c, value, s, k)
    requires Pending(s.tasks, s.tasks[k].pid, s.next) == Pending(s'.tasks, s.tasks[k].pid, s'.next) + 1
    requires Owed(s.tasks, s.tasks[k].pid, s.next) == Owed(s'.tasks, s.tasks[k].pid, s'.next) + s.tasks[k].want
    ensures TaskOk(c, value, s', p)
  {
    hide OwnerOf, Used, Pending, Owed;
    var q, id := s.tasks[p], s.tasks[k].pid;
    var got := q.got + s.tasks[k].rows;
    assert multiset(got) == multiset(q.got) + s.tasks[k].want;
    if q.cnt > 1 {
      forall j: nat | Under(s'.tasks, id, j)
        ensures j > p
      {
        assert Under(s.tasks, id, j);
      }
    } else {
      NonePending(s'.tasks, id, s'.next);
    }
  }

  lemma MergeRoots<W>(c: Cluster, value: W -> Rows, s: State<W>, s': State<W>, k: nat, p: nat)
    requires Inv(c, value, s) && Merged(c, s, s', k, p) && s.tasks[p].id !in s.roots
    requires forall x: nat :: x != s.tasks[k].pid ==> SameFor(s, s', x)
    ensures RootsOk(c, s')
  {
    hide OwnerOf, Used, Pending, Owed, CountersOk, AllParented, TasksOk, ResumedOk, SameFor;
    forall r | r in s'.roots
      ensures RootOk(c, s', r)
    {
      RootKept(c, s, s', r);
    }
  }

  lemma MergeParents<W>(c: Cluster, value: W -> Rows, s: State<W>, s': State<W>, k: nat, p: nat)
    requires Inv(c, value, s) && Merged(c, s, s', k, p)
    requires s.tasks[p].cnt == Pending(s.tasks, s.tasks[k].pid, s.next)
    requires Pending(s.tasks, s.tasks[k].pid, s.next) == Pending(s'.tasks, s.tasks[k].pid, s'.next) + 1
    ensures AllParented(s') && OneParent(s')
  {
    hide Used, OwnerOf, CountersOk, TasksOk, RootsOk, ResumedOk, AllParented, OneParent, Pending;
    TasksBelow(c, value, s);
    forall x: nat, j: nat
      ensures IsParent(s'.tasks, x, j) ==> IsParent(s.tasks, x, j)
      ensures IsParent(s.tasks, x, j) ==> IsParent(s'.tasks, x, j) || (j == p && x == s.tasks[k].pid && s.tasks[p].cnt <= 1)
    {
    }
    if s.tasks[p].cnt <= 1 { NonePending(s'.tasks, s.tasks[k].pid, s'.next); }
    ParentedKept(s, s', 0);
    SameParents(s, s');
  }

  lemma MergeResumed<W>(c: Cluster, value: W -> Rows, s: State<W>, s': State<W>, k: nat, p: nat)
    requires Inv(c, value, s) && Merged(c, s, s', k, p)
    ensures ResumedOk(c, s')
  {
    hide OwnerOf, Used, CountersOk, RootsOk, AllParented, OneParent, Pending, Owed;
  }

  // delivering an answer to the proxy

  ghost predicate Delivered<W>(s: State<W>, s': State<W>, k: nat) {
    && k in s.tasks && s.tasks[k].Answered? && s.tasks[k].pid in s.roots
    && s'.next == s.next && s'.roots == s.roots && s'.counters == s.counters && s'.resumed == s.resumed
    && s'.tasks == s.tasks - {k} && s'.answers == s.answers[s.tasks[k].pid := s.tasks[k].rows]
  }

  lemma DeliverInv<W>(c: Cluster, value: W -> Rows, s: State<W>, s': State<W>, k: nat)
    requires Inv(c, value, s) && Delivered(s, s', k)
    ensures Inv(c, value, s')
  {
    hide OwnerOf, Used, CountersOk, TasksOk, RootsOk, ResumedOk, AllParented, OneParent;
    TasksBelow(c, value, s);
    DeliverSame(s, s', k);
    DeliverTasks(c, value, s, s', k);
    DeliverRoots(c, value, s, s', k);
    DeliverParents(c, value, s, s', k);
    ResumedSame(c, s, s');
  }

  lemma DeliverSame<W>(s: State<W>, s': State<W>, k: nat)
    requires Delivered(s, s', k) && k < s.next
    ensures forall x: nat :: x != s.tasks[k].pid ==> SameFor(s, s', x)
    ensures Pending(s.tasks, s.tasks[k].pid, s.next) == Pending(s'.tasks, s.tasks[k].pid, s'.next) + 1
    ensures Owed(s.tasks, s.tasks[k].pid, s.next) == Owed(s'.tasks, s.tasks[k].pid, s'.next) + s.tasks[k].want
  {
    hide Pending, Owed;
    forall x: nat | x != s.tasks[k].pid
      ensures SameFor(s, s', x)
    {
    }
    RemoveSums(s.tasks, s'.tasks, k, s.tasks[k].pid, s.next);
  }

  lemma DeliverTasks<W>(c: Cluster, value: W -> Rows, s: State<W>, s': State<W>, k: nat)
    requires Inv(c, value, s) && Delivered(s, s', k)
    requires forall x: nat :: x != s.tasks[k].pid ==> SameFor(s, s', x)
    ensures TasksOk(c, value, s')
  {
    hide OwnerOf, Used, Pending, Owed, CountersOk, AllParented, RootsOk, ResumedOk, SameFor;
    forall j | j in s'.tasks
      ensures j < s'.next && TaskOk(c, value, s', j)
    {
      TaskKept(c, value, s, s', j);
    }
  }

  lemma DeliverRoots<W>(c: Cluster, value: W -> Rows, s: State<W>, s': State<W>, k: nat)
    requires Inv(c, value, s) && Delivered(s, s', k)
    requires forall x: nat :: x != s.tasks[k].pid ==> SameFor(s, s', x)
    requires Pending(s.tasks, s.tasks[k].pid, s.next) == Pending(s'.tasks, s.tasks[k].pid, s'.next) + 1
    requires Owed(s.tasks, s.tasks[k].pid, s.next) == Owed(s'.tasks, s.tasks[k].pid, s'.next) + s.tasks[k].want
    ensures RootsOk(c, s')
  {
    hide OwnerOf, Used, Pending, Owed, CountersOk, AllParented, ResumedOk, SameFor;
    forall r | r in s'.roots
      ensures RootOk(c, s', r)
    {
      if r != s.tasks[k].pid {
        RootKept(c, s, s', r);
      } else {
        NonePending(s'.tasks, r, s'.next);
        assert TaskOk(c, value, s, k);
      }
    }
  }

  lemma DeliverParents<W>(c: Cluster, value: W -> Rows, s: State<W>, s': State<W>, k: nat)
    requires Inv(c, value, s) && Delivered(s, s', k)
    ensures AllParented(s') && OneParent(s')
  {
    hide Used, OwnerOf, CountersOk, TasksOk, RootsOk, ResumedOk, AllParented, OneParent;
    forall x: nat, j: nat
      ensures IsParent(s'.tasks, x, j) <==> IsParent(s.tasks, x, j)
    {
    }
    ParentedKept(s, s', 0);
    SameParents(s, s');
  }

  // ---- every run ----

  ghost predicate Init<W>(c: Cluster, s: State<W>) {
    && Sized(c) && CountersOk(c, s.counters)
    && s.tasks == map[] && s.roots == map[] && s.answers == map[] && s.resumed == []
  }

  lemma SubmitNext<W>(c: Cluster, value: W -> Rows, s: State<W>, at: Place, to: Place, work: W)
    requires Inv(c, value, s) && Enabled(c, value, s, Submit(at, to, work))
    ensures Inv(c, value, Apply(c, value, s, Submit(at, to, work)))
  {
    hide OwnerOf, Used, CountersOk, TasksOk, RootsOk, ResumedOk, AllParented, OneParent, Counted, Total;
    var s' := Apply(c, value, s, Submit(at, to, work));
    CountStep(c, s.counters, at);
    SubmitInv(c, value, s, s', s.counters[at], to, work);
  }

  lemma FinishNext<W>(c: Cluster, value: W -> Rows, s: State<W>, k: nat, rows: seq<Row>)
    requires Inv(c, value, s) && Enabled(c, value, s, Finish(k, rows))
    ensures Inv(c, value, Apply(c, value, s, Finish(k, rows)))
  {
    hide OwnerOf, Used, CountersOk, TasksOk, RootsOk, ResumedOk, AllParented, OneParent, Counted, Total;
    var s' := Apply(c, value, s, Finish(k, rows));
    CountStep(c, s.counters, s.tasks[k].to);
    FinishInv(c, value, s, s', k, rows);
  }

  lemma SplitNext<W>(c: Cluster, value: W -> Rows, s: State<W>, k: nat, parts: seq<Part<W>>)
    requires Inv(c, value, s) && Enabled(c, value, s, Split(k, parts))
    ensures Inv(c, value, Apply(c, value, s, Split(k, parts)))
  {
    hide OwnerOf, Used, CountersOk, TasksOk, RootsOk, ResumedOk, AllParented, OneParent, Counted, Total;
    var s' := Apply(c, value, s, Split(k, parts));
    CountStep(c, s.counters, s.tasks[k].to);
    TasksBelow(c, value, s);
    SplitInv(c, value, s, s', k, s.counters[s.tasks[k].to], parts);
  }

  lemma MergeNext<W>(c: Cluster, value: W -> Rows, s: State<W>, k: nat, p: nat)
    requires Inv(c, value, s) && Enabled(c, value, s, Merge(k, p))
    ensures Inv(c, value, Apply(c, value, s, Merge(k, p)))
  {
    hide OwnerOf, Used, CountersOk, TasksOk, RootsOk, ResumedOk, AllParented, OneParent, Counted, Total;
    var s' := Apply(c, value, s, Merge(k, p));
    MergeInv(c, value, s, s', k, p);
  }

  lemma DeliverNext<W>(c: Cluster, value: W -> Rows, s: State<W>, k: nat)
    requires Inv(c, value, s) && Enabled(c, value, s, Deliver(k))
    ensures Inv(c, value, Apply(c, value, s, Deliver(k)))
  {
    hide OwnerOf, Used, CountersOk, TasksOk, RootsOk, ResumedOk, AllParented, OneParent, Counted, Total;
    var s' := Apply(c, value, s, Deliver(k));
    DeliverInv(c, value, s, s', k);
  }

  /** Every step keeps the invariant. */
  lemma NextInv<W>(c: Cluster, value: W -> Rows, s: State<W>, step: Step<W>)
    requires Inv(c, value, s) && Enabled(c, value, s, step)
    ensures Inv(c, value, Apply(c, value, s, step))
  {
    hide Inv, Apply, Enabled;
    match step
    case Submit(at, to, work) => SubmitNext(c, value, s, at, to, work);
    case Finish(k, rows) => FinishNext(c, value, s, k, rows);
    case Split(k, parts) => SplitNext(c, value, s, k, parts);
    case Merge(k, p) => MergeNext(c, value, s, k, p);
    case Deliver(k) => DeliverNext(c, value, s, k);
  }

  /** A run from the start to state s. */
  ghost predicate IsRun<W>(c: Cluster, value: W -> Rows, states: seq<State<W>>, steps: seq<Step<W>>) {
    && |states| == |steps| + 1 && Init(c, states[0])
    && forall i :: 0 <= i < |steps| ==> Enabled(c, value, states[i], steps[i]) && states[i + 1] == Apply(c, value, states[i], steps[i])
  }

  lemma {:induction false} RunInv<W>(c: Cluster, value: W -> Rows, states: seq<State<W>>, steps: seq<Step<W>>, i: nat)
    requires IsRun(c, value, states, steps) && i < |states|
    ensures Inv(c, value, states[i])
  {
    hide Apply, CanStep, Worth, CountersOk;
    if i > 0 {
      RunInv(c, value, states, steps, i - 1);
      NextInv(c, value, states[i - 1], steps[i - 1]);
    }
  }

  // ---- what holds in every reachable state ----

  /** A waiting query's count is the number of its parts that are not merged yet; they are all
      younger than it. */
  lemma CountIsUnmerged<W>(c: Cluster, value: W -> Rows, s: State<W>, p: nat)
    requires Inv(c, value, s) && p in s.tasks && s.tasks[p].Waiting?
    ensures 0 < s.tasks[p].cnt == Pending(s.tasks, s.tasks[p].id, s.next)
    ensures forall k: nat :: Under(s.tasks, s.tasks[p].id, k) ==> p < k < s.next
  {
    hide OwnerOf, Used, Pending, Owed;
  }

  lemma ParentFacts<W>(c: Cluster, value: W -> Rows, s: State<W>, k: nat, p: nat)
    requires Inv(c, value, s) && k in s.tasks && s.tasks[k].Answered? && IsParent(s.tasks, s.tasks[k].pid, p)
    ensures Enabled(c, value, s, Merge(k, p)) && s.tasks[k].pid !in s.roots
  {
    hide OwnerOf, Used, Pending, Owed, AllParented, RootsOk, ResumedOk, OneParent, CountersOk;
    assert TaskOk(c, value, s, p) && TaskOk(c, value, s, k);
  }

  /** An answer arrives where its parent's only entry is, or is the answer to a proxy's query. */
  lemma AnswerFindsParent<W>(c: Cluster, value: W -> Rows, s: State<W>, k: nat) returns (p: nat)
    requires Inv(c, value, s) && k in s.tasks && s.tasks[k].Answered?
    ensures Enabled(c, value, s, Deliver(k)) || Enabled(c, value, s, Merge(k, p))
    ensures forall j: nat :: Enabled(c, value, s, Merge(k, j)) ==> j == p && !Enabled(c, value, s, Deliver(k))
  {
    hide OwnerOf, Used, Pending, Owed, RootsOk, ResumedOk, CountersOk, TasksOk;
    p := 0;
    assert Parented(s, k);
    if j: nat :| IsParent(s.tasks, s.tasks[k].pid, j) {
      p := j;
      ParentFacts(c, value, s, k, p);
    }
    forall j: nat | Enabled(c, value, s, Merge(k, j))
      ensures j == p && !Enabled(c, value, s, Deliver(k))
    {
      assert IsParent(s.tasks, s.tasks[k].pid, j);
      ParentFacts(c, value, s, k, j);
    }
  }

  /** A query that is about to wait has a number that no other entry has. */
  lemma NewEntryIsNew<W>(c: Cluster, value: W -> Rows, s: State<W>, k: nat)
    requires Inv(c, value, s) && k in s.tasks && s.tasks[k].Sent? && CanCount(c, s.counters, s.tasks[k].to)
    ensures forall j: nat :: !IsParent(s.tasks, s.counters[s.tasks[k].to], j)
    ensures s.counters[s.tasks[k].to] !in s.resumed
  {
    hide OwnerOf, Used, Pending, Owed, CountersOk;
    CountStep(c, s.counters, s.tasks[k].to);
    NewIdUnused(c, value, s, s.counters[s.tasks[k].to]);
  }

  /** While anything is left to do, some query or answer is on its way. */
  lemma {:induction false} SomethingToHandle<W>(c: Cluster, value: W -> Rows, s: State<W>, k: nat) returns (j: nat)
    requires Inv(c, value, s) && k in s.tasks
    ensures j in s.tasks && !s.tasks[j].Waiting?
    decreases s.next - k
  {
    hide OwnerOf, Used, Pending, Owed;
    if !s.tasks[k].Waiting? {
      j := k;
    } else {
      CountIsUnmerged(c, value, s, k);
      j := SomeUnder(s.tasks, s.tasks[k].id, s.next);
      j := SomethingToHandle(c, value, s, j);
    }
  }

  /** No parent is ever resumed twice: the numbers resumed are different, and once there stay. */
  lemma {:induction false} ResumedOnce<W>(c: Cluster, value: W -> Rows, states: seq<State<W>>, steps: seq<Step<W>>, i: nat, j: nat)
    requires IsRun(c, value, states, steps) && i <= j < |states|
    ensures Distinct(states[j].resumed) && states[i].resumed <= states[j].resumed
    decreases j
  {
    hide CanStep, Worth, CountersOk, Apply;
    RunInv(c, value, states, steps, j);
    if i < j {
      ResumedOnce(c, value, states, steps, i, j - 1);
      ResumedStep(c, value, states[j - 1], steps[j - 1]);
    }
  }

  lemma ResumedStep<W>(c: Cluster, value: W -> Rows, s: State<W>, step: Step<W>)
    requires Sized(c) && CanStep(c, s, step)
    ensures s.resumed <= Apply(c, value, s, step).resumed
  {
  }

  lemma RootsStep<W>(c: Cluster, value: W -> Rows, s: State<W>, step: Step<W>, r: nat)
    requires Inv(c, value, s) && Enabled(c, value, s, step) && r in s.roots
    ensures r in Apply(c, value, s, step).roots && Apply(c, value, s, step).roots[r] == s.roots[r]
  {
    hide OwnerOf, Used, CountersOk, TasksOk, ResumedOk, AllParented, OneParent, Counted, Total, Pending, Owed;
    match step
    case Submit(at, to, work) =>
      CountStep(c, s.counters, at);
      NewIdUnused(c, value, s, s.counters[at]);
    case _ =>
  }

  lemma {:induction false} RootsStay<W>(c: Cluster, value: W -> Rows, states: seq<State<W>>, steps: seq<Step<W>>, i: nat, j: nat, r: nat)
    requires IsRun(c, value, states, steps) && i <= j < |states| && r in states[i].roots
    ensures r in states[j].roots && states[j].roots[r] == states[i].roots[r]
    decreases j
  {
    hide CanStep, Worth, CountersOk, Apply;
    if i < j {
      RootsStay(c, value, states, steps, i, j - 1, r);
      RunInv(c, value, states, steps, j - 1);
      RootsStep(c, value, states[j - 1], steps[j - 1], r);
    }
  }

  /** Whatever order queries and answers travel in, a proxy's query is answered with exactly the
      rows it should produce. */
  lemma AnswersAreRight<W>(c: Cluster, value: W -> Rows, states: seq<State<W>>, steps: seq<Step<W>>, i: nat, j: nat)
    requires IsRun(c, value, states, steps) && i < j < |states| && steps[i].Submit?
    ensures steps[i].at in states[i].counters
    ensures states[i].counters[steps[i].at] in states[j].answers ==>
      multiset(states[j].answers[states[i].counters[steps[i].at]]) == value(steps[i].work)
  {
    hide OwnerOf, Used, CountersOk, TasksOk, ResumedOk, AllParented, OneParent, Counted, Total, Pending, Owed, Inv;
    assert Enabled(c, value, states[i], steps[i]) && states[i + 1] == Apply(c, value, states[i], steps[i]);
    var r := states[i].counters[steps[i].at];
    RootsStay(c, value, states, steps, i + 1, j, r);
    RunInv(c, value, states, steps, j);
    if r in states[j].answers { RootAnswer(c, value, states[j], r); }
  }

  lemma RootAnswer<W>(c: Cluster, value: W -> Rows, s: State<W>, r: nat)
    requires Inv(c, value, s) && r in s.answers
    ensures r in s.roots && multiset(s.answers[r]) == s.roots[r]
  {
  }
}
