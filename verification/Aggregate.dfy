/**
 * Picking, sorting and deduplicating the edges of a thread (core/dgraph.hpp, aggregate_data and
 * dedup_triples).
 */
module Aggregate {
  import opened Query

  /** A triple seen from one end: the vertex whose list it belongs to, and the list's element. */
  datatype Arc = Arc(v: nat, p: nat, x: nat)

  function OutArc(t: Triple): Arc { Arc(t.s, t.p, t.o) }

  function InArc(t: Triple): Arc { Arc(t.o, t.p, t.s) }

  // ---- sorting ----

  predicate Less(a: Arc, b: Arc) {
    a.v < b.v || (a.v == b.v && (a.p < b.p || (a.p == b.p && a.x < b.x)))
  }

  ghost predicate Sorted(s: seq<Arc>) { forall i, j :: 0 <= i < j < |s| ==> !Less(s[j], s[i]) }

  /** Sorts; which algorithm the library uses does not matter. */
  method Sort(s: seq<Arc>) returns (r: seq<Arc>)
    ensures Sorted(r) && multiset(r) == multiset(s)
  {
    r := [];
    for i := 0 to |s|
      invariant Sorted(r) && multiset(r) == multiset(s[..i])
    {
      assert s[..i + 1] == s[..i] + [s[i]];
      InsertSorts(r, s[i]);
      r := Insert(r, s[i]);
    }
    assert s[..|s|] == s;
  }

  function Insert(s: seq<Arc>, x: Arc): seq<Arc> {
    if s == [] then [x]
    else if Less(s[|s| - 1], x) || s[|s| - 1] == x then s + [x]
    else Insert(s[..|s| - 1], x) + [s[|s| - 1]]
  }

  lemma SortedSnoc(s: seq<Arc>, x: Arc)
    requires Sorted(s) && forall i :: 0 <= i < |s| ==> !Less(x, s[i])
    ensures Sorted(s + [x])
  {
  }

  lemma {:induction false} InsertSorts(s: seq<Arc>, x: Arc)
    requires Sorted(s)
    ensures Sorted(Insert(s, x)) && multiset(Insert(s, x)) == multiset(s) + multiset{x}
  {
    hide Less;
    if s != [] {
      var front, last := s[..|s| - 1], s[|s| - 1];
      assert s == front + [last];
      if Less(last, x) || last == x {
        forall i | 0 <= i < |s|
          ensures !Less(x, s[i])
        {
          LessTrans(last, x, s[i]);
        }
        SortedSnoc(s, x);
      } else {
        InsertSorts(front, x);
        InsertBounded(s, Insert(front, x), x);
        SortedSnoc(Insert(front, x), last);
      }
    }
  }

  lemma LessTrans(a: Arc, b: Arc, c: Arc)
    ensures Less(a, b) && Less(b, c) ==> Less(a, c)
    ensures !Less(a, a)
  {
  }

  lemma InsertBounded(s: seq<Arc>, r: seq<Arc>, x: Arc)
    requires s != [] && Sorted(s) && multiset(r) == multiset(s[..|s| - 1]) + multiset{x} && !Less(s[|s| - 1], x)
    ensures forall i :: 0 <= i < |r| ==> !Less(s[|s| - 1], r[i])
  {
    forall i | 0 <= i < |r|
      ensures !Less(s[|s| - 1], r[i])
    {
      assert r[i] in multiset(r);
      if r[i] != x { assert r[i] in s[..|s| - 1]; }
    }
  }

  // ---- removing repeated triples ----

  /** Without the elements that repeat their predecessor. */
  function DedupAdjacent(s: seq<Arc>): seq<Arc> {
    if |s| <= 1 then s
    else DedupAdjacent(s[..|s| - 1]) + if s[|s| - 1] == s[|s| - 2] then [] else [s[|s| - 1]]
  }

  lemma DedupStep(s: seq<Arc>, i: nat)
    requires 0 < i < |s|
    ensures DedupAdjacent(s[..i + 1]) == DedupAdjacent(s[..i]) + if s[i] == s[i - 1] then [] else [s[i]]
  {
    assert s[..i + 1][..i] == s[..i];
  }

  method DedupTriples(triples: seq<Arc>) returns (r: seq<Arc>)
    ensures r == DedupAdjacent(triples)
  {
    if |triples| <= 1 { return triples; }
    r := triples;
    var n := 1;
    assert triples[..1] == [triples[0]];
    for i := 1 to |triples|
      invariant 1 <= n <= i && |r| == |triples|
      invariant r[..n] == DedupAdjacent(triples[..i])
      invariant r[i - 1..] == triples[i - 1..]
    {
      DedupStep(triples, i);
      assert r[i] == r[i - 1..][1] && r[i - 1] == r[i - 1..][0];
      assert triples[i] == triples[i - 1..][1] && triples[i - 1] == triples[i - 1..][0];
      assert r[i..] == r[i - 1..][1..] && triples[i..] == triples[i - 1..][1..];
      if r[i] == r[i - 1] { continue; }
      r := r[n := r[i]];
      n := n + 1;
    }
    assert triples[..|triples|] == triples;
    r := r[..n];
  }

  lemma {:induction false} DedupMembers(s: seq<Arc>, a: Arc)
    ensures a in DedupAdjacent(s) <==> a in s
  {
    if |s| > 1 {
      DedupMembers(s[..|s| - 1], a);
      assert s == s[..|s| - 1] + [s[|s| - 1]];
      assert s[|s| - 2] == s[..|s| - 1][|s| - 2];
    }
  }

  /** On sorted input nothing is left twice. */
  lemma {:induction false} DedupSorted(s: seq<Arc>)
    requires Sorted(s)
    ensures Sorted(DedupAdjacent(s)) && Distinct(DedupAdjacent(s))
  {
    if |s| > 1 {
      var front, last := s[..|s| - 1], s[|s| - 1];
      DedupSorted(front);
      forall i | 0 <= i < |DedupAdjacent(front)|
        ensures !Less(last, DedupAdjacent(front)[i])
        ensures last != s[|s| - 2] ==> DedupAdjacent(front)[i] != last
      {
        var a := DedupAdjacent(front)[i];
        DedupMembers(front, a);
        var k :| 0 <= k < |front| && front[k] == a;
        assert s[k] == a;
      }
    }
  }

  lemma {:induction false} DedupDistinct(s: seq<Arc>)
    requires Distinct(s)
    ensures DedupAdjacent(s) == s
  {
    if |s| > 1 {
      DedupDistinct(s[..|s| - 1]);
      assert s == s[..|s| - 1] + [s[|s| - 1]];
    }
  }

  lemma PermutedDistinct(a: seq<Arc>, b: seq<Arc>)
    requires multiset(a) == multiset(b)
    ensures Distinct(a) <==> Distinct(b)
    ensures forall x :: x in a <==> x in b
  {
    forall x
      ensures x in a <==> x in b
    {
      assert x in multiset(a) <==> x in multiset(b);
    }
    Multiplicity(a);
    Multiplicity(b);
  }

  lemma {:induction false} Multiplicity<T>(a: seq<T>)
    ensures Distinct(a) <==> forall x :: multiset(a)[x] <= 1
  {
    if a != [] {
      var front, last := a[..|a| - 1], a[|a| - 1];
      Multiplicity(front);
      assert a == front + [last];
      assert Distinct(a) <==> Distinct(front) && last !in front by {
        if Distinct(front) && last !in front {
          forall i, j | 0 <= i < j < |a|
            ensures a[i] != a[j]
          {
            if j == |a| - 1 { assert a[i] == front[i]; }
          }
        }
        if Distinct(a) { assert forall i :: 0 <= i < |front| ==> front[i] == a[i] && a[i] != a[|a| - 1]; }
      }
      assert forall x :: multiset(a)[x] == multiset(front)[x] + if x == last then 1 else 0;
      assert last in front <==> multiset(front)[last] >= 1;
      if last in front { assert multiset(a)[last] >= 2; }
    }
  }

  // ---- what a thread of a server picks ----

  /** The triples of the vertices that thread tid of server sid takes care of. */
  predicate Picked(v: nat, sid: nat, n: nat, tid: nat, engines: nat)
    requires n > 0 && engines > 0
  {
    v % n == sid && v % engines == tid
  }

  function PickOut(ts: seq<Triple>, sid: nat, n: nat, tid: nat, engines: nat): seq<Arc>
    requires n > 0 && engines > 0
  {
    if ts == [] then []
    else PickOut(ts[..|ts| - 1], sid, n, tid, engines)
         + if Picked(ts[|ts| - 1].s, sid, n, tid, engines) then [OutArc(ts[|ts| - 1])] else []
  }

  function PickIn(ts: seq<Triple>, sid: nat, n: nat, tid: nat, engines: nat): seq<Arc>
    requires n > 0 && engines > 0
  {
    if ts == [] then []
    else PickIn(ts[..|ts| - 1], sid, n, tid, engines)
         + if Picked(ts[|ts| - 1].o, sid, n, tid, engines) then [InArc(ts[|ts| - 1])] else []
  }

  lemma {:induction false} PickMembers(ts: seq<Triple>, sid: nat, n: nat, tid: nat, engines: nat, a: Arc)
    requires n > 0 && engines > 0
    ensures a in PickOut(ts, sid, n, tid, engines) <==> Triple(a.v, a.p, a.x) in ts && Picked(a.v, sid, n, tid, engines)
    ensures a in PickIn(ts, sid, n, tid, engines) <==> Triple(a.x, a.p, a.v) in ts && Picked(a.v, sid, n, tid, engines)
  {
    hide Picked;
    if ts != [] {
      PickMembers(ts[..|ts| - 1], sid, n, tid, engines, a);
      assert ts == ts[..|ts| - 1] + [ts[|ts| - 1]];
    }
  }

  // ---- which in-edges stay once ----

  /** Nothing stands between copies of the arc. */
  ghost predicate Contiguous(s: seq<Arc>, a: Arc) {
    forall i, m, j :: 0 <= i < m < j < |s| && s[i] == a && s[j] == a ==> s[m] == a
  }

  /** Removing equal neighbours leaves an arc at most once exactly if its copies are contiguous. */
  lemma {:induction false} DedupOnce(s: seq<Arc>, a: Arc)
    ensures multiset(DedupAdjacent(s))[a] <= 1 <==> Contiguous(s, a)
  {
    if |s| > 1 {
      var front, x := s[..|s| - 1], s[|s| - 1];
      DedupOnce(front, a);
      assert s == front + [x];
      if x == front[|front| - 1] {
        ContiguousMore(front, x, a);
      } else if x != a {
        ContiguousOther(front, x, a);
      } else {
        DedupMembers(front, a);
        ContiguousNew(front, a);
      }
    }
  }

  lemma ContiguousMore(front: seq<Arc>, x: Arc, a: Arc)
    requires front != [] && x == front[|front| - 1]
    ensures Contiguous(front + [x], a) <==> Contiguous(front, a)
  {
    var s, n := front + [x], |front|;
    assert forall i :: 0 <= i < n ==> s[i] == front[i];
    if Contiguous(front, a) {
      forall i, m, j | 0 <= i < m < j < |s| && s[i] == a && s[j] == a
        ensures s[m] == a
      {
        if j == n && m < n - 1 { assert front[n - 1] == a && front[m] == a; }
      }
    }
    if Contiguous(s, a) {
      forall i, m, j | 0 <= i < m < j < n && front[i] == a && front[j] == a
        ensures front[m] == a
      {
        assert s[i] == a && s[j] == a && s[m] == front[m];
      }
    }
  }

  lemma ContiguousOther(front: seq<Arc>, x: Arc, a: Arc)
    requires x != a
    ensures Contiguous(front + [x], a) <==> Contiguous(front, a)
  {
    var s, n := front + [x], |front|;
    assert forall i :: 0 <= i < n ==> s[i] == front[i];
    if Contiguous(s, a) {
      forall i, m, j | 0 <= i < m < j < n && front[i] == a && front[j] == a
        ensures front[m] == a
      {
        assert s[i] == a && s[j] == a && s[m] == front[m];
      }
    }
  }

  lemma ContiguousNew(front: seq<Arc>, a: Arc)
    requires front != [] && front[|front| - 1] != a
    ensures Contiguous(front + [a], a) <==> a !in front
  {
    var s, n := front + [a], |front|;
    assert forall i :: 0 <= i < n ==> s[i] == front[i];
    if a in front {
      var i :| 0 <= i < n && front[i] == a;
      assert s[i] == a && s[n] == a && s[n - 1] != a;
    }
  }

  // positions in the input and in what a thread picks

  function Rank(ts: seq<Triple>, m: nat, sid: nat, n: nat, tid: nat, engines: nat): nat
    requires n > 0 && engines > 0 && m <= |ts|
  {
    |PickIn(ts[..m], sid, n, tid, engines)|
  }

  lemma {:induction false} PickAtRank(ts: seq<Triple>, m: nat, sid: nat, n: nat, tid: nat, engines: nat)
    requires n > 0 && engines > 0 && m < |ts| && Picked(ts[m].o, sid, n, tid, engines)
    ensures Rank(ts, m, sid, n, tid, engines) < |PickIn(ts, sid, n, tid, engines)|
    ensures PickIn(ts, sid, n, tid, engines)[Rank(ts, m, sid, n, tid, engines)] == InArc(ts[m])
    decreases |ts|
  {
    hide Picked;
    var front := ts[..|ts| - 1];
    if m < |ts| - 1 {
      PickAtRank(front, m, sid, n, tid, engines);
      assert front[..m] == ts[..m];
    }
  }

  lemma {:induction false} RankGrows(ts: seq<Triple>, i: nat, m: nat, sid: nat, n: nat, tid: nat, engines: nat)
    requires n > 0 && engines > 0 && i < m <= |ts|
    ensures Rank(ts, i, sid, n, tid, engines) <= Rank(ts, m, sid, n, tid, engines)
    ensures Picked(ts[i].o, sid, n, tid, engines) ==> Rank(ts, i, sid, n, tid, engines) < Rank(ts, m, sid, n, tid, engines)
    decreases m
  {
    hide Picked;
    assert ts[..m][..m - 1] == ts[..m - 1];
    if i < m - 1 { RankGrows(ts, i, m - 1, sid, n, tid, engines); }
  }

  lemma {:induction false} RankOf(ts: seq<Triple>, k: nat, sid: nat, n: nat, tid: nat, engines: nat) returns (m: nat)
    requires n > 0 && engines > 0 && k < |PickIn(ts, sid, n, tid, engines)|
    ensures m < |ts| && Picked(ts[m].o, sid, n, tid, engines) && Rank(ts, m, sid, n, tid, engines) == k
    decreases |ts|
  {
    hide Picked;
    var front := ts[..|ts| - 1];
    if k < |PickIn(front, sid, n, tid, engines)| {
      m := RankOf(front, k, sid, n, tid, engines);
      assert front[..m] == ts[..m];
    } else {
      m := |ts| - 1;
    }
  }

  /** The same server and thread takes care of both vertices. */
  predicate SameThread(u: nat, v: nat, n: nat, engines: nat)
    requires n > 0 && engines > 0
  {
    u % n == v % n && u % engines == v % engines
  }

  /** Between two copies of the triple in the input, whatever goes to the same thread is a copy. */
  ghost predicate StaysOnce(ts: seq<Triple>, t: Triple, n: nat, engines: nat)
    requires n > 0 && engines > 0
  {
    forall i, m, j :: 0 <= i < m < j < |ts| && ts[i] == t && ts[j] == t && SameThread(ts[m].o, t.o, n, engines) ==> ts[m] == t
  }

  lemma PickedContiguous(ts: seq<Triple>, t: Triple, sid: nat, n: nat, tid: nat, engines: nat)
    requires n > 0 && engines > 0 && Picked(t.o, sid, n, tid, engines)
    ensures Contiguous(PickIn(ts, sid, n, tid, engines), InArc(t)) <==> StaysOnce(ts, t, n, engines)
  {
    var s, a := PickIn(ts, sid, n, tid, engines), InArc(t);
    if Contiguous(s, a) {
      forall i, m, j | 0 <= i < m < j < |ts| && ts[i] == t && ts[j] == t && SameThread(ts[m].o, t.o, n, engines)
        ensures ts[m] == t
      {
        BetweenPicked(ts, t, i, m, j, sid, n, tid, engines);
      }
    }
    if StaysOnce(ts, t, n, engines) {
      forall k, l, r | 0 <= k < l < r < |s| && s[k] == a && s[r] == a
        ensures s[l] == a
      {
        BetweenInput(ts, t, k, l, r, sid, n, tid, engines);
      }
    }
  }

  lemma BetweenPicked(ts: seq<Triple>, t: Triple, i: nat, m: nat, j: nat, sid: nat, n: nat, tid: nat, engines: nat)
    requires n > 0 && engines > 0 && Picked(t.o, sid, n, tid, engines) && Contiguous(PickIn(ts, sid, n, tid, engines), InArc(t))
    requires i < m < j < |ts| && ts[i] == t && ts[j] == t && SameThread(ts[m].o, t.o, n, engines)
    ensures ts[m] == t
  {
    PickAtRank(ts, i, sid, n, tid, engines);
    PickAtRank(ts, m, sid, n, tid, engines);
    PickAtRank(ts, j, sid, n, tid, engines);
    RankGrows(ts, i, m, sid, n, tid, engines);
    RankGrows(ts, m, j, sid, n, tid, engines);
  }

  lemma BetweenInput(ts: seq<Triple>, t: Triple, k: nat, l: nat, r: nat, sid: nat, n: nat, tid: nat, engines: nat)
    requires n > 0 && engines > 0 && Picked(t.o, sid, n, tid, engines) && StaysOnce(ts, t, n, engines)
    requires k < l < r < |PickIn(ts, sid, n, tid, engines)|
    requires PickIn(ts, sid, n, tid, engines)[k] == InArc(t) && PickIn(ts, sid, n, tid, engines)[r] == InArc(t)
    ensures PickIn(ts, sid, n, tid, engines)[l] == InArc(t)
  {
    var i := RankOf(ts, k, sid, n, tid, engines);
    var m := RankOf(ts, l, sid, n, tid, engines);
    var j := RankOf(ts, r, sid, n, tid, engines);
    PickAtRank(ts, i, sid, n, tid, engines);
    PickAtRank(ts, m, sid, n, tid, engines);
    PickAtRank(ts, j, sid, n, tid, engines);
    if m < i { RankGrows(ts, m, i, sid, n, tid, engines); }
    if j < m { RankGrows(ts, j, m, sid, n, tid, engines); }
  }

  /** Input without repetition is fine. */
  lemma DistinctStaysOnce(ts: seq<Triple>, t: Triple, n: nat, engines: nat)
    requires n > 0 && engines > 0 && Distinct(ts)
    ensures StaysOnce(ts, t, n, engines)
  {
  }

  /** The triple that an in-arc comes from. */
  function TripleOf(a: Arc): Triple { Triple(a.x, a.p, a.v) }

  // ---- how many edges there are ----

  /** The triples whose subjects belong to threads a up to b of the server. */
  ghost function OutOf(ts: seq<Triple>, sid: nat, n: nat, a: nat, b: nat, engines: nat): set<Triple>
    requires n > 0 && engines > 0
  {
    set t | t in ts && t.s % n == sid && a <= t.s % engines < b
  }

  lemma OutOfMore(ts: seq<Triple>, sid: nat, n: nat, m: nat, engines: nat)
    requires n > 0 && engines > 0
    ensures |OutOf(ts, sid, n, 0, m + 1, engines)| == |OutOf(ts, sid, n, 0, m, engines)| + |OutOf(ts, sid, n, m, m + 1, engines)|
  {
    var x, y := OutOf(ts, sid, n, 0, m, engines), OutOf(ts, sid, n, m, m + 1, engines);
    assert OutOf(ts, sid, n, 0, m + 1, engines) == x + y;
    assert x !! y;
  }

  lemma {:induction false} SizeOfSeq<T>(s: seq<T>, m: set<T>)
    requires Distinct(s) && forall x :: x in s <==> x in m
    ensures |s| == |m|
  {
    if s == [] {
      assert m == {};
    } else {
      var front, last := s[..|s| - 1], s[|s| - 1];
      assert s == front + [last] && last !in front;
      SizeOfSeq(front, m - {last});
    }
  }

  lemma OutSize(spo: seq<Arc>, ts: seq<Triple>, sid: nat, n: nat, tid: nat, engines: nat)
    requires n > 0 && engines > 0 && Distinct(spo)
    requires forall a :: a in spo <==> Triple(a.v, a.p, a.x) in ts && Picked(a.v, sid, n, tid, engines)
    ensures |spo| == |OutOf(ts, sid, n, tid, tid + 1, engines)|
  {
    var out := seq(|spo|, i requires 0 <= i < |spo| => Triple(spo[i].v, spo[i].p, spo[i].x));
    forall t
      ensures t in out <==> t in OutOf(ts, sid, n, tid, tid + 1, engines)
    {
      if t in out {
        var i :| 0 <= i < |out| && out[i] == t;
        assert spo[i] in spo;
      }
      if t in OutOf(ts, sid, n, tid, tid + 1, engines) {
        assert OutArc(t) in spo;
        var i :| 0 <= i < |spo| && spo[i] == OutArc(t);
        assert out[i] == t;
      }
    }
    SizeOfSeq(out, OutOf(ts, sid, n, tid, tid + 1, engines));
  }

  /** Position i repeats what its thread picked last. */
  ghost predicate Repeats(ts: seq<Triple>, i: nat, n: nat, engines: nat)
    requires n > 0 && engines > 0 && i < |ts|
  {
    exists j :: LastBefore(ts, j, i, n, engines) && ts[j] == ts[i]
  }

  /** Position j is the last one before i that goes to the same thread. */
  ghost predicate LastBefore(ts: seq<Triple>, j: int, i: nat, n: nat, engines: nat)
    requires n > 0 && engines > 0 && i < |ts|
  {
    0 <= j < i && SameThread(ts[j].o, ts[i].o, n, engines) && forall m :: j < m < i ==> !SameThread(ts[m].o, ts[i].o, n, engines)
  }

  /** How many copies of a triple stay: one for each run of them in what its thread picks. */
  ghost function Copies(ts: seq<Triple>, t: Triple, n: nat, engines: nat): nat
    requires n > 0 && engines > 0
  {
    if ts == [] then 0
    else Copies(ts[..|ts| - 1], t, n, engines) + if ts[|ts| - 1] == t && !Repeats(ts, |ts| - 1, n, engines) then 1 else 0
  }

  /** An in-edge of a vertex, for threads a up to b of the server, that repeats none. */
  ghost predicate Starts(ts: seq<Triple>, i: nat, sid: nat, n: nat, a: nat, b: nat, engines: nat)
    requires n > 0 && engines > 0 && i < |ts|
  {
    ts[i].o % n == sid && a <= ts[i].o % engines < b && !IsIndexId(ts[i].o) && !Repeats(ts, i, n, engines)
  }

  ghost function Runs(ts: seq<Triple>, sid: nat, n: nat, a: nat, b: nat, engines: nat): nat
    requires n > 0 && engines > 0
  {
    if ts == [] then 0
    else Runs(ts[..|ts| - 1], sid, n, a, b, engines) + if Starts(ts, |ts| - 1, sid, n, a, b, engines) then 1 else 0
  }

  lemma {:induction false} RunsMore(ts: seq<Triple>, sid: nat, n: nat, m: nat, engines: nat)
    requires n > 0 && engines > 0
    ensures Runs(ts, sid, n, 0, m + 1, engines) == Runs(ts, sid, n, 0, m, engines) + Runs(ts, sid, n, m, m + 1, engines)
  {
    hide Repeats;
    if ts != [] { RunsMore(ts[..|ts| - 1], sid, n, m, engines); }
  }

  /** How many of the arcs belong to vertices that are no types. */
  ghost function Plain(s: seq<Arc>): nat {
    if s == [] then 0 else Plain(s[..|s| - 1]) + if IsIndexId(s[|s| - 1].v) then 0 else 1
  }

  lemma {:induction false} PlainConcat(a: seq<Arc>, b: seq<Arc>)
    ensures Plain(a + b) == Plain(a) + Plain(b)
    decreases |b|
  {
    if b == [] {
      assert a + b == a;
    } else {
      var s := a + b;
      assert s[..|s| - 1] == a + b[..|b| - 1] && s[|s| - 1] == b[|b| - 1];
      PlainConcat(a, b[..|b| - 1]);
    }
  }

  lemma PlainOne(x: Arc)
    ensures Plain([x]) == if IsIndexId(x.v) then 0 else 1
  {
    assert [x][..0] == [];
  }

  lemma PlainWithout(b: seq<Arc>, i: nat) returns (rest: seq<Arc>)
    requires i < |b|
    ensures Plain(b) == Plain(rest) + Plain([b[i]]) && |rest| == |b| - 1
    ensures multiset(b) == multiset(rest) + multiset{b[i]}
  {
    hide Plain;
    rest := b[..i] + b[i + 1..];
    assert b == b[..i] + [b[i]] + b[i + 1..];
    PlainConcat(b[..i] + [b[i]], b[i + 1..]);
    PlainConcat(b[..i], [b[i]]);
    PlainConcat(b[..i], b[i + 1..]);
  }

  lemma Cancel(a: multiset<Arc>, b: multiset<Arc>, x: Arc)
    requires a + multiset{x} == b + multiset{x}
    ensures a == b
  {
    assert a == (a + multiset{x}) - multiset{x};
    assert b == (b + multiset{x}) - multiset{x};
  }

  lemma {:induction false} PlainPermuted(a: seq<Arc>, b: seq<Arc>)
    requires multiset(a) == multiset(b)
    ensures Plain(a) == Plain(b)
    decreases |a|
  {
    hide Plain;
    if a == [] {
      assert |multiset(b)| == |b|;
    } else {
      var x := a[0];
      assert x in multiset(b);
      var i :| 0 <= i < |b| && b[i] == x;
      var front := PlainWithout(a, 0);
      var rest := PlainWithout(b, i);
      Cancel(multiset(front), multiset(rest), x);
      PlainPermuted(front, rest);
    }
  }

  lemma {:induction false} LastPick(ts: seq<Triple>, sid: nat, n: nat, tid: nat, engines: nat) returns (j: nat)
    requires n > 0 && engines > 0 && PickIn(ts, sid, n, tid, engines) != []
    ensures j < |ts| && Picked(ts[j].o, sid, n, tid, engines)
    ensures var s := PickIn(ts, sid, n, tid, engines); s[|s| - 1] == InArc(ts[j])
    ensures forall m :: j < m < |ts| ==> !Picked(ts[m].o, sid, n, tid, engines)
  {
    hide Picked;
    j := |ts| - 1;
    if !Picked(ts[j].o, sid, n, tid, engines) { j := LastPick(ts[..|ts| - 1], sid, n, tid, engines); }
  }

  lemma {:induction false} NonePicked(ts: seq<Triple>, sid: nat, n: nat, tid: nat, engines: nat, m: nat)
    requires n > 0 && engines > 0 && PickIn(ts, sid, n, tid, engines) == [] && m < |ts|
    ensures !Picked(ts[m].o, sid, n, tid, engines)
  {
    hide Picked;
    if m < |ts| - 1 { NonePicked(ts[..|ts| - 1], sid, n, tid, engines, m); }
  }

  /** What a thread picks repeats the pick before exactly if it repeats it in the input. */
  lemma RepeatsPick(ts: seq<Triple>, sid: nat, n: nat, tid: nat, engines: nat)
    requires n > 0 && engines > 0 && ts != [] && Picked(ts[|ts| - 1].o, sid, n, tid, engines)
    ensures var s := PickIn(ts[..|ts| - 1], sid, n, tid, engines);
      Repeats(ts, |ts| - 1, n, engines) <==> s != [] && s[|s| - 1] == InArc(ts[|ts| - 1])
  {
    var front, i := ts[..|ts| - 1], |ts| - 1;
    var s := PickIn(front, sid, n, tid, engines);
    forall m | 0 <= m < i
      ensures SameThread(ts[m].o, ts[i].o, n, engines) <==> Picked(front[m].o, sid, n, tid, engines)
    {
    }
    if s != [] {
      var j := LastPick(front, sid, n, tid, engines);
      assert LastBefore(ts, j, i, n, engines);
      if Repeats(ts, i, n, engines) {
        var k :| LastBefore(ts, k, i, n, engines) && ts[k] == ts[i];
        assert k == j;
      }
    } else if Repeats(ts, i, n, engines) {
      var k :| LastBefore(ts, k, i, n, engines) && ts[k] == ts[i];
      NonePicked(front, sid, n, tid, engines, k);
    }
  }

  /** Removing equal neighbours from a thread's in-edges leaves one for each run of the input. */
  lemma {:induction false} PlainKept(ts: seq<Triple>, sid: nat, n: nat, tid: nat, engines: nat)
    requires n > 0 && engines > 0
    ensures Plain(DedupAdjacent(PickIn(ts, sid, n, tid, engines))) == Runs(ts, sid, n, tid, tid + 1, engines)
  {
    hide Repeats;
    if ts != [] {
      var front, last := ts[..|ts| - 1], ts[|ts| - 1];
      PlainKept(front, sid, n, tid, engines);
      if Picked(last.o, sid, n, tid, engines) {
        RepeatsPick(ts, sid, n, tid, engines);
        DedupMore(PickIn(front, sid, n, tid, engines), InArc(last));
        assert PickIn(ts, sid, n, tid, engines) == PickIn(front, sid, n, tid, engines) + [InArc(last)];
      } else {
        assert PickIn(ts, sid, n, tid, engines) == PickIn(front, sid, n, tid, engines);
      }
    }
  }

  lemma {:induction false} CopiesKept(ts: seq<Triple>, t: Triple, sid: nat, n: nat, tid: nat, engines: nat)
    requires n > 0 && engines > 0 && Picked(t.o, sid, n, tid, engines)
    ensures multiset(DedupAdjacent(PickIn(ts, sid, n, tid, engines)))[InArc(t)] == Copies(ts, t, n, engines)
    decreases |ts|
  {
    hide Repeats, Picked, DedupAdjacent;
    if ts != [] {
      var front, last := ts[..|ts| - 1], ts[|ts| - 1];
      CopiesKept(front, t, sid, n, tid, engines);
      if Picked(last.o, sid, n, tid, engines) {
        RepeatsPick(ts, sid, n, tid, engines);
        DedupCount(PickIn(front, sid, n, tid, engines), InArc(last), InArc(t));
        assert PickIn(ts, sid, n, tid, engines) == PickIn(front, sid, n, tid, engines) + [InArc(last)];
        assert InArc(last) == InArc(t) <==> last == t;
      } else {
        assert PickIn(ts, sid, n, tid, engines) == PickIn(front, sid, n, tid, engines);
      }
    } else {
      assert DedupAdjacent([]) == [] by { DedupNone(); }
    }
  }

  lemma DedupNone()
    ensures DedupAdjacent([]) == []
  {
  }

  lemma DedupCount(s: seq<Arc>, x: Arc, a: Arc)
    ensures multiset(DedupAdjacent(s + [x]))[a] ==
      multiset(DedupAdjacent(s))[a] + if x == a && !(s != [] && s[|s| - 1] == x) then 1 else 0
  {
    var m := s + [x];
    assert m[..|m| - 1] == s;
    if s != [] { assert DedupAdjacent(m) == DedupAdjacent(s) + if s[|s| - 1] == x then [] else [x]; }
  }

  lemma DedupMore(s: seq<Arc>, x: Arc)
    ensures Plain(DedupAdjacent(s + [x])) ==
      Plain(DedupAdjacent(s)) + if (s != [] && s[|s| - 1] == x) || IsIndexId(x.v) then 0 else 1
  {
    var m := s + [x];
    assert m[..|m| - 1] == s;
    PlainOne(x);
    if s == [] {
      assert m == [x];
    } else {
      var add: seq<Arc> := if s[|s| - 1] == x then [] else [x];
      assert DedupAdjacent(m) == DedupAdjacent(s) + add;
      PlainConcat(DedupAdjacent(s), add);
    }
  }

  /** One thread's share: its lists' elements in order.  Repeated triples are removed from the
      out-edges.  In-edges are checked for repetition before they are sorted, so an in-edge is
      left once exactly if in the input only copies of it stand between its copies, as far as
      this thread is concerned. */
  method AggregateData(ts: seq<Triple>, sid: nat, n: nat, tid: nat, engines: nat) returns (spo: seq<Arc>, ops: seq<Arc>)
    requires n > 0 && engines > 0
    ensures Sorted(spo) && Distinct(spo) && Sorted(ops)
    ensures forall a :: a in spo <==> Triple(a.v, a.p, a.x) in ts && Picked(a.v, sid, n, tid, engines)
    ensures forall a :: a in ops <==> TripleOf(a) in ts && Picked(a.v, sid, n, tid, engines)
    ensures forall a :: a in ops ==> multiset(ops)[a] == Copies(ts, TripleOf(a), n, engines)
    ensures forall a :: a in ops ==> (multiset(ops)[a] <= 1 <==> StaysOnce(ts, TripleOf(a), n, engines))
    ensures |spo| == |OutOf(ts, sid, n, tid, tid + 1, engines)| && Plain(ops) == Runs(ts, sid, n, tid, tid + 1, engines)
  {
    hide Picked, Less, Sorted, Distinct, Runs, OutOf, Plain, Copies;
    spo, ops := [], [];
    for i := 0 to |ts|
      invariant spo == PickOut(ts[..i], sid, n, tid, engines) && ops == PickIn(ts[..i], sid, n, tid, engines)
    {
      assert ts[..i + 1][..i] == ts[..i];
      if Picked(ts[i].s, sid, n, tid, engines) { spo := spo + [OutArc(ts[i])]; }
      if Picked(ts[i].o, sid, n, tid, engines) { ops := ops + [InArc(ts[i])]; }
    }
    assert ts[..|ts|] == ts;
    ghost var outArcs, inArcs := spo, ops;
    spo := Sort(spo);
    PermutedDistinct(spo, outArcs);
    ghost var sorted := spo;
    ops := DedupTriples(ops);
    ghost var deduped := ops;
    ops := Sort(ops);
    PermutedDistinct(ops, deduped);
    PlainPermuted(ops, deduped);
    PlainKept(ts, sid, n, tid, engines);
    spo := DedupTriples(spo);
    DedupSorted(sorted);
    forall a
      ensures a in spo <==> Triple(a.v, a.p, a.x) in ts && Picked(a.v, sid, n, tid, engines)
      ensures a in ops <==> TripleOf(a) in ts && Picked(a.v, sid, n, tid, engines)
      ensures a in ops ==> multiset(ops)[a] == Copies(ts, TripleOf(a), n, engines)
      ensures a in ops ==> (multiset(ops)[a] <= 1 <==> StaysOnce(ts, TripleOf(a), n, engines))
    {
      PickMembers(ts, sid, n, tid, engines, a);
      DedupMembers(sorted, a);
      DedupMembers(inArcs, a);
      if a in ops {
        DedupOnce(inArcs, a);
        CopiesKept(ts, TripleOf(a), sid, n, tid, engines);
        PickedContiguous(ts, TripleOf(a), sid, n, tid, engines);
      }
    }
    OutSize(spo, ts, sid, n, tid, engines);
  }

  /** Three triples, the first and the last the same, on one server with one thread: the in-edge
      of the repeated triple comes out twice. */
  method RepeatedTripleStays() returns (ts: seq<Triple>, ops: seq<Arc>)
    ensures ts == [Triple(0x2_0001, 2, 0x2_0003), Triple(0x2_0002, 2, 0x2_0003), Triple(0x2_0001, 2, 0x2_0003)]
    ensures multiset(ops)[Arc(0x2_0003, 2, 0x2_0001)] > 1
  {
    var t, u := Triple(0x2_0001, 2, 0x2_0003), Triple(0x2_0002, 2, 0x2_0003);
    ts := [t, u, t];
    var spo;
    spo, ops := AggregateData(ts, 0, 1, 0, 1);
    assert ts[0] == t && ts[2] == t && ts[1] != t && SameThread(ts[1].o, t.o, 1, 1);
    assert !StaysOnce(ts, t, 1, 1);
    assert t in ts && TripleOf(InArc(t)) == t && Picked(t.o, 0, 1, 0, 1);
    assert InArc(t) in ops;
  }
}
