/**
 * Bulk loading (core/gstore.hpp, insert_normal and insert_index).
 *
 * A server takes the sorted edges of the vertices it owns, thread by thread, and stores every
 * run of edges with the same vertex and predicate as one list.  Then it scans its table and
 * stores, per type and per predicate, the list of its vertices.
 */
module BulkLoad {
  import opened Query
  import opened Aggregate
  import HT = HashTable
  import GS = GStore
  import Iteration

  // ---- room for the lists ----

  /** A server on its way to having the given keys, with the overflow buckets that those it has
      take. */
  ghost predicate OnTheWay(server: GS.Server, keys: set<HT.Key>)
    reads server, server.table
  {
    && server.lists.Keys <= keys && server.table.numBuckets > 0
    && server.table.lastExt == HT.Demand(server.lists.Keys, server.table.hash, server.table.numBuckets)
  }

  /** The overflow buckets that all of them will take. */
  ghost function Over(server: GS.Server, keys: set<HT.Key>): nat
    requires server.table.numBuckets > 0
  {
    HT.Demand(keys, server.table.hash, server.table.numBuckets)
  }

  lemma OneMoreKey(lists: Lists, k: HT.Key, keys: set<HT.Key>, hash: HT.Key -> nat, buckets: nat)
    requires lists.Keys <= keys && k in keys && k !in lists && buckets > 0
    ensures HT.Demand(lists.Keys + {k}, hash, buckets) ==
      HT.Demand(lists.Keys, hash, buckets) + if HT.HomeFull(lists.Keys, hash, buckets, hash(k) % buckets) then 1 else 0
    ensures HT.Demand(lists.Keys + {k}, hash, buckets) <= HT.Demand(keys, hash, buckets)
  {
    hide HT.HomeFull, HT.DemandTo;
    HT.DemandMore(lists.Keys, k, hash, buckets, buckets);
    HT.DemandGrows(lists.Keys + {k}, keys, hash, buckets, buckets);
  }

  lemma {:induction false} SubsetSize<T>(a: set<T>, b: set<T>)
    requires a <= b
    ensures |a| <= |b|
    decreases |a|
  {
    if a != {} {
      var x :| x in a;
      SubsetSize(a - {x}, b - {x});
    }
  }

  /** How a step of the load ends that has `size` entries to store on the way to keys that take
      `over` overflow buckets. */
  ghost predicate Ends(r: GS.Put, before: nat, size: nat, after: nat, entries: nat, ext: nat, over: nat) {
    match r
    case Done => after == before + size && (size > 0 ==> after < entries)
    case NoEntries => size > 0 && before + size >= entries
    case NoBuckets => ext < over
    case Conflict => false
  }

  lemma EndsEarly(r: GS.Put, before: nat, size: nat, more: nat, after: nat, entries: nat, ext: nat, over: nat)
    requires r != GS.Done && Ends(r, before, size, after, entries, ext, over)
    ensures Ends(r, before, size + more, after, entries, ext, over)
  {
  }

  lemma EndsLater(r: GS.Put, before: nat, size: nat, between: nat, more: nat, after: nat, entries: nat, ext: nat, over: nat)
    requires Ends(GS.Done, before, size, between, entries, ext, over) && Ends(r, between, more, after, entries, ext, over)
    ensures Ends(r, before, size + more, after, entries, ext, over)
  {
  }

  /** Store one of the lists that the server is to have. */
  method PutNext(server: GS.Server, key: HT.Key, list: seq<nat>, ghost keys: set<HT.Key>) returns (r: GS.Put)
    requires server.Valid() && key != HT.EmptyKey && key !in server.lists && list != []
    requires OnTheWay(server, keys) && key in keys
    modifies server, server.table, server.table.vertices, server.edges
    ensures server.Valid() && r != GS.Conflict
    ensures r == GS.Done ==> server.lists == old(server.lists)[key := list] && OnTheWay(server, keys)
    ensures Ends(r, old(server.lastEntry), |list|, server.lastEntry, server.edges.Length, server.table.numBucketsExt, Over(server, keys))
  {
    hide GS.ListsOk, HT.TableOk, HT.Refines, HT.HomeFull, HT.Demand;
    OneMoreKey(server.lists, key, keys, server.table.hash, server.table.numBuckets);
    assert server.lists[key := list].Keys == server.lists.Keys + {key};
    r := server.PutList(key, list);
  }

  // ---- runs of arcs become lists ----

  function KeyOf(a: Arc, dir: nat): HT.Key { HT.Key(a.v, a.p, dir) }

  /** The elements of the arcs with the given key, in order. */
  function Values(arcs: seq<Arc>, dir: nat, k: HT.Key): seq<nat> {
    if arcs == [] then []
    else Values(arcs[..|arcs| - 1], dir, k) + if KeyOf(arcs[|arcs| - 1], dir) == k then [arcs[|arcs| - 1].x] else []
  }

  ghost predicate HasArc(arcs: seq<Arc>, dir: nat, k: HT.Key) { exists i :: 0 <= i < |arcs| && KeyOf(arcs[i], dir) == k }

  lemma {:induction false} ValuesMembers(arcs: seq<Arc>, dir: nat, k: HT.Key, x: nat)
    ensures x in Values(arcs, dir, k) <==> k.dir == dir && Arc(k.vid, k.pid, x) in arcs
  {
    if arcs != [] {
      ValuesMembers(arcs[..|arcs| - 1], dir, k, x);
      assert arcs == arcs[..|arcs| - 1] + [arcs[|arcs| - 1]];
    }
  }

  lemma {:induction false} ValuesCount(arcs: seq<Arc>, dir: nat, k: HT.Key, x: nat)
    ensures multiset(Values(arcs, dir, k))[x] == if k.dir == dir then multiset(arcs)[Arc(k.vid, k.pid, x)] else 0
  {
    if arcs != [] {
      var front, last := arcs[..|arcs| - 1], arcs[|arcs| - 1];
      ValuesCount(front, dir, k, x);
      assert arcs == front + [last];
    }
  }

  /** A list is free of repetition exactly if each of its arcs is there once. */
  lemma ValuesDistinct(arcs: seq<Arc>, dir: nat, k: HT.Key)
    requires k.dir == dir
    ensures Distinct(Values(arcs, dir, k)) <==> forall x: nat :: x in Values(arcs, dir, k) ==> multiset(arcs)[Arc(k.vid, k.pid, x)] <= 1
  {
    var vs: seq<nat> := Values(arcs, dir, k);
    var ms: multiset<nat> := multiset(vs);
    Multiplicity(vs);
    forall x: nat
      ensures ms[x] == multiset(arcs)[Arc(k.vid, k.pid, x)]
      ensures x !in vs ==> ms[x] == 0
    {
      ValuesCount(arcs, dir, k, x);
      assert x in vs <==> x in ms;
    }
  }

  /** The elements under one key are in order. */
  lemma {:induction false} ValuesAscend(arcs: seq<Arc>, dir: nat, k: HT.Key)
    requires Sorted(arcs)
    ensures Ascending(Values(arcs, dir, k))
  {
    if arcs != [] {
      var front, last := arcs[..|arcs| - 1], arcs[|arcs| - 1];
      assert Sorted(front) by { assert forall i :: 0 <= i < |front| ==> front[i] == arcs[i]; }
      ValuesAscend(front, dir, k);
      var vs: seq<nat> := Values(front, dir, k);
      if KeyOf(last, dir) == k {
        forall i | 0 <= i < |vs|
          ensures vs[i] <= last.x
        {
          ValuesMembers(front, dir, k, vs[i]);
          LastIsGreatest(arcs, Arc(k.vid, k.pid, vs[i]));
        }
        AscendingMore(vs, last.x);
      }
    }
  }

  lemma LastIsGreatest(arcs: seq<Arc>, a: Arc)
    requires Sorted(arcs) && arcs != [] && a in arcs[..|arcs| - 1]
    ensures !Less(arcs[|arcs| - 1], a)
  {
    var i :| 0 <= i < |arcs| - 1 && arcs[..|arcs| - 1][i] == a;
    assert arcs[i] == a;
  }

  lemma AscendingMore(list: seq<nat>, x: nat)
    requires Ascending(list) && forall i :: 0 <= i < |list| ==> list[i] <= x
    ensures Ascending(list + [x])
  {
  }

  lemma {:induction false} ValuesNone(arcs: seq<Arc>, dir: nat, k: HT.Key)
    requires !HasArc(arcs, dir, k)
    ensures Values(arcs, dir, k) == []
  {
    if arcs != [] {
      assert KeyOf(arcs[|arcs| - 1], dir) != k;
      assert forall i :: 0 <= i < |arcs| - 1 ==> arcs[..|arcs| - 1][i] == arcs[i];
      ValuesNone(arcs[..|arcs| - 1], dir, k);
    }
  }

  function Elements(arcs: seq<Arc>): (r: seq<nat>)
    ensures |r| == |arcs| && forall i :: 0 <= i < |arcs| ==> r[i] == arcs[i].x
  {
    seq(|arcs|, i requires 0 <= i < |arcs| => arcs[i].x)
  }

  /** A run from b to e adds its elements to its own key's values, and to no other's. */
  lemma {:induction false} ValuesRun(arcs: seq<Arc>, b: nat, e: nat, dir: nat, k: HT.Key)
    requires b < e <= |arcs| && forall i :: b <= i < e ==> KeyOf(arcs[i], dir) == KeyOf(arcs[b], dir)
    ensures Values(arcs[..e], dir, k) == Values(arcs[..b], dir, k) + if k == KeyOf(arcs[b], dir) then Elements(arcs[b..e]) else []
    decreases e
  {
    assert arcs[..e][..e - 1] == arcs[..e - 1];
    if e == b + 1 {
      assert Elements(arcs[b..e]) == [arcs[b].x];
    } else {
      ValuesRun(arcs, b, e - 1, dir, k);
      assert Elements(arcs[b..e]) == Elements(arcs[b..e - 1]) + [arcs[e - 1].x];
      assert KeyOf(arcs[e - 1], dir) == KeyOf(arcs[b], dir);
    }
  }

  type Lists = map<HT.Key, seq<nat>>

  /** The lists after the arcs have been added to the lists that were there. */
  ghost predicate Added(lists0: Lists, lists: Lists, arcs: seq<Arc>, dir: nat) {
    && (forall k :: k in lists <==> k in lists0 || HasArc(arcs, dir, k))
    && (forall k :: k in lists0 ==> k in lists && lists[k] == lists0[k])
    && forall k :: HasArc(arcs, dir, k) ==> k in lists && (k !in lists0 ==> lists[k] == Values(arcs, dir, k))
  }

  ghost predicate Separate(lists: Lists, arcs: seq<Arc>, dir: nat) {
    forall i :: 0 <= i < |arcs| ==> KeyOf(arcs[i], dir) !in lists && arcs[i].v > 0
  }

  /** Position s starts a new run. */
  ghost predicate Boundary(arcs: seq<Arc>, s: nat, dir: nat) {
    s <= |arcs| && forall i, j :: 0 <= i < s <= j < |arcs| ==> KeyOf(arcs[i], dir) != KeyOf(arcs[j], dir)
  }

  lemma BoundaryAt(arcs: seq<Arc>, b: nat, e: nat, dir: nat)
    requires Sorted(arcs) && b < e <= |arcs| && Boundary(arcs, b, dir)
    requires forall i :: b <= i < e ==> KeyOf(arcs[i], dir) == KeyOf(arcs[b], dir)
    requires e < |arcs| ==> KeyOf(arcs[e], dir) != KeyOf(arcs[b], dir)
    ensures Boundary(arcs, e, dir)
  {
    forall i, j | 0 <= i < e <= j < |arcs|
      ensures KeyOf(arcs[i], dir) != KeyOf(arcs[j], dir)
    {
      if i >= b {
        assert !Less(arcs[e], arcs[b]) && (e < j ==> !Less(arcs[j], arcs[e]));
      }
    }
  }

  lemma HasArcRun(arcs: seq<Arc>, b: nat, e: nat, dir: nat, k: HT.Key)
    requires b < e <= |arcs| && forall i :: b <= i < e ==> KeyOf(arcs[i], dir) == KeyOf(arcs[b], dir)
    ensures HasArc(arcs[..e], dir, k) <==> HasArc(arcs[..b], dir, k) || k == KeyOf(arcs[b], dir)
  {
    assert arcs[..e][b] == arcs[b];
    if HasArc(arcs[..b], dir, k) {
      var i :| 0 <= i < b && KeyOf(arcs[..b][i], dir) == k;
      assert arcs[..e][i] == arcs[..b][i];
    }
    if HasArc(arcs[..e], dir, k) {
      var i :| 0 <= i < e && KeyOf(arcs[..e][i], dir) == k;
      if i < b { assert arcs[..b][i] == arcs[..e][i]; }
    }
  }

  lemma AddedRun(lists0: Lists, lists: Lists, arcs: seq<Arc>, b: nat, e: nat, dir: nat)
    requires Separate(lists0, arcs, dir) && b < e <= |arcs| && Boundary(arcs, b, dir)
    requires forall i :: b <= i < e ==> KeyOf(arcs[i], dir) == KeyOf(arcs[b], dir)
    requires Added(lists0, lists, arcs[..b], dir)
    ensures KeyOf(arcs[b], dir) !in lists
    ensures Added(lists0, lists[KeyOf(arcs[b], dir) := Elements(arcs[b..e])], arcs[..e], dir)
  {
    hide Values, HasArc;
    var k0 := KeyOf(arcs[b], dir);
    var lists' := lists[k0 := Elements(arcs[b..e])];
    assert !HasArc(arcs[..b], dir, k0) by { NoArcBefore(arcs, b, dir); }
    forall k
      ensures k in lists' <==> k in lists0 || HasArc(arcs[..e], dir, k)
      ensures HasArc(arcs[..e], dir, k) ==> k in lists' && (k !in lists0 ==> lists'[k] == Values(arcs[..e], dir, k))
    {
      HasArcRun(arcs, b, e, dir, k);
      ValuesRun(arcs, b, e, dir, k);
      if k == k0 { ValuesNone(arcs[..b], dir, k); }
    }
  }

  lemma NoArcBefore(arcs: seq<Arc>, b: nat, dir: nat)
    requires b < |arcs| && Boundary(arcs, b, dir)
    ensures !HasArc(arcs[..b], dir, KeyOf(arcs[b], dir))
  {
    assert forall i :: 0 <= i < b ==> arcs[..b][i] == arcs[i];
  }

  lemma NoneAdded(lists: Lists, dir: nat)
    ensures Added(lists, lists, [], dir)
  {
  }

  /** Store every run as one list.  No key comes up twice. */
  method InsertArcs(server: GS.Server, arcs: seq<Arc>, dir: nat, ghost keys: set<HT.Key>) returns (r: GS.Put)
    requires server.Valid() && Sorted(arcs) && Separate(server.lists, arcs, dir)
    requires OnTheWay(server, keys) && forall i :: 0 <= i < |arcs| ==> KeyOf(arcs[i], dir) in keys
    modifies server, server.table, server.table.vertices, server.edges
    ensures server.Valid() && r != GS.Conflict
    ensures r == GS.Done ==> Added(old(server.lists), server.lists, arcs, dir) && OnTheWay(server, keys)
    ensures Ends(r, old(server.lastEntry), |arcs|, server.lastEntry, server.edges.Length, server.table.numBucketsExt, Over(server, keys))
  {
    hide Added, Sorted, GS.ListsOk, HT.TableOk, HT.Refines, Values, Boundary;
    ghost var lists0 := server.lists;
    NoneAdded(lists0, dir);
    assert arcs[..0] == [];
    FirstBoundary(arcs, dir);
    var s := 0;
    while s < |arcs|
      invariant server.Valid() && s <= |arcs| && Boundary(arcs, s, dir) && Added(lists0, server.lists, arcs[..s], dir)
      invariant OnTheWay(server, keys) && server.lastEntry == old(server.lastEntry) + s
      invariant s > 0 ==> server.lastEntry < server.edges.Length
    {
      var e := s + 1;
      while e < |arcs| && arcs[s].v == arcs[e].v && arcs[s].p == arcs[e].p
        invariant s < e <= |arcs| && forall i :: s <= i < e ==> KeyOf(arcs[i], dir) == KeyOf(arcs[s], dir)
      {
        e := e + 1;
      }
      BoundaryAt(arcs, s, e, dir);
      AddedRun(lists0, server.lists, arcs, s, e, dir);
      r := PutNext(server, KeyOf(arcs[s], dir), Elements(arcs[s..e]), keys);
      if r != GS.Done { return; }
      s := e;
    }
    assert arcs[..|arcs|] == arcs;
    r := GS.Done;
  }

  lemma FirstBoundary(arcs: seq<Arc>, dir: nat)
    ensures Boundary(arcs, 0, dir)
  {
  }

  // ---- the normal lists of a server ----

  /** Element x belongs into the list of key k. */
  predicate ArcIn(ts: seq<Triple>, k: HT.Key, x: nat) {
    if k.dir == GS.DIR_OUT then Triple(k.vid, k.pid, x) in ts else k.dir == GS.DIR_IN && Triple(x, k.pid, k.vid) in ts
  }

  /** Out-lists for all subjects; in-lists for all objects but types. */
  ghost predicate Wanted(ts: seq<Triple>, k: HT.Key) {
    (k.dir == GS.DIR_OUT || !IsIndexId(k.vid)) && exists x: nat :: ArcIn(ts, k, x)
  }

  /** The vertices that the first m threads of server sid have taken care of. */
  predicate Mine(v: nat, sid: nat, n: nat, m: nat, engines: nat)
    requires n > 0 && engines > 0
  {
    v % n == sid && v % engines < m
  }

  /** Exactly the lists of those vertices, each with exactly its elements. */
  ghost predicate Exact(lists: Lists, ts: seq<Triple>, sid: nat, n: nat, m: nat, engines: nat)
    requires n > 0 && engines > 0
  {
    && (forall k :: k in lists <==> Mine(k.vid, sid, n, m, engines) && Wanted(ts, k))
    && (forall k :: k in lists ==> ExactList(lists[k], ts, k) && OnceList(lists[k], ts, k, n, engines))
  }

  /** Exactly the right elements, and for out-lists each once. */
  ghost predicate ExactList(list: seq<nat>, ts: seq<Triple>, k: HT.Key) {
    (k.dir == GS.DIR_OUT ==> Distinct(list)) && forall x: nat :: x in list <==> ArcIn(ts, k, x)
  }

  ghost function Often(list: seq<nat>, x: nat): nat {
    var all: multiset<nat> := multiset(list);
    all[x]
  }

  ghost predicate Ascending(list: seq<nat>) { forall i, j :: 0 <= i < j < |list| ==> list[i] <= list[j] }

  /** The list is in order.  An in-list has each element as often as copies of its triple stay, hence
      once exactly if all its triples stay once. */
  ghost predicate OnceList(list: seq<nat>, ts: seq<Triple>, k: HT.Key, n: nat, engines: nat)
    requires n > 0 && engines > 0
  {
    && Ascending(list)
    && (k.dir == GS.DIR_IN ==>
      && (Distinct(list) <==> forall x: nat :: ArcIn(ts, k, x) ==> StaysOnce(ts, Triple(x, k.pid, k.vid), n, engines))
      && forall x: nat :: x in list ==> Often(list, x) == Copies(ts, Triple(x, k.pid, k.vid), n, engines))
  }

  /** Subjects and objects are vertices or types; a type is the object of type triples only. */
  predicate GoodTriple(t: Triple) {
    && t.s >= NORMAL_ID
    && (if t.p == TYPE_ID then IsIndexId(t.o) else IsIndexId(t.p) && t.o >= NORMAL_ID)
  }

  ghost predicate AllGood(ts: seq<Triple>) { forall i :: 0 <= i < |ts| ==> GoodTriple(ts[i]) }

  /** The arcs of thread tid in one direction, types left out of the in-arcs. */
  ghost predicate ArcsOf(arcs: seq<Arc>, ts: seq<Triple>, dir: nat, sid: nat, n: nat, tid: nat, engines: nat)
    requires n > 0 && engines > 0
  {
    && Sorted(arcs) && (dir == GS.DIR_OUT ==> Distinct(arcs))
    && (dir == GS.DIR_IN ==> forall a :: a in arcs ==> (multiset(arcs)[a] <= 1 <==> StaysOnce(ts, TripleOf(a), n, engines)))
    && (dir == GS.DIR_IN ==> forall a :: a in arcs ==> multiset(arcs)[a] == Copies(ts, TripleOf(a), n, engines))
    && forall a :: a in arcs <==> Picked(a.v, sid, n, tid, engines) && ArcIn(ts, KeyOf(a, dir), a.x) && (dir == GS.DIR_OUT || !IsIndexId(a.v))
  }

  /** Skip the type triples, which sorting has put first. */
  method SkipTypes(ops: seq<Arc>) returns (k: nat)
    requires Sorted(ops) && forall a :: a in ops ==> a.v > 1
    ensures k <= |ops| && (forall a :: a in ops[k..] <==> a in ops && !IsIndexId(a.v))
    ensures forall a :: a in ops[..k] ==> IsIndexId(a.v)
  {
    k := 0;
    while k < |ops| && IsIndexId(ops[k].v)
      invariant k <= |ops| && forall i :: 0 <= i < k ==> IsIndexId(ops[i].v)
    {
      k := k + 1;
    }
    forall i | k <= i < |ops|
      ensures !IsIndexId(ops[i].v)
    {
      assert ops[k] in ops;
      assert k < i ==> !Less(ops[i], ops[k]);
    }
    TypesFirst(ops, k);
  }

  lemma TypesFirst(ops: seq<Arc>, k: nat)
    requires k <= |ops| && (forall i :: 0 <= i < k ==> IsIndexId(ops[i].v)) && forall i :: k <= i < |ops| ==> !IsIndexId(ops[i].v)
    ensures forall a :: a in ops[k..] <==> a in ops && !IsIndexId(a.v)
    ensures forall a :: a in ops[..k] ==> IsIndexId(a.v)
  {
    forall a
      ensures a in ops[k..] ==> !IsIndexId(a.v)
      ensures a in ops[..k] ==> IsIndexId(a.v)
      ensures a in ops <==> a in ops[..k] || a in ops[k..]
    {
      assert ops == ops[..k] + ops[k..];
      if a in ops[k..] {
        var i :| 0 <= i < |ops| - k && ops[k..][i] == a;
        assert ops[k + i] == a;
      }
      if a in ops[..k] {
        var i :| 0 <= i < k && ops[..k][i] == a;
        assert ops[i] == a;
      }
    }
  }

  lemma SuffixSorted(s: seq<Arc>, k: nat)
    requires k <= |s| && Sorted(s)
    ensures Sorted(s[k..])
  {
    assert forall i :: 0 <= i < |s| - k ==> s[k..][i] == s[k + i];
  }

  /** Partway through thread m: its out-lists are in, its in-lists not yet. */
  ghost predicate Half(lists: Lists, ts: seq<Triple>, sid: nat, n: nat, m: nat, engines: nat)
    requires n > 0 && engines > 0
  {
    && (forall k :: k in lists <==>
          Wanted(ts, k) && (Mine(k.vid, sid, n, m, engines) || (Picked(k.vid, sid, n, m, engines) && k.dir == GS.DIR_OUT)))
    && (forall k :: k in lists ==> ExactList(lists[k], ts, k) && OnceList(lists[k], ts, k, n, engines))
  }

  lemma HasArcMeans(arcs: seq<Arc>, ts: seq<Triple>, dir: nat, sid: nat, n: nat, tid: nat, engines: nat, k: HT.Key)
    requires n > 0 && engines > 0 && ArcsOf(arcs, ts, dir, sid, n, tid, engines) && (dir == GS.DIR_IN || dir == GS.DIR_OUT)
    ensures HasArc(arcs, dir, k) <==> k.dir == dir && Picked(k.vid, sid, n, tid, engines) && Wanted(ts, k)
    ensures HasArc(arcs, dir, k) ==> ExactList(Values(arcs, dir, k), ts, k)
    ensures HasArc(arcs, dir, k) ==> OnceList(Values(arcs, dir, k), ts, k, n, engines)
  {
    hide Picked, Values, Sorted, Distinct, StaysOnce, Copies;
    if HasArc(arcs, dir, k) {
      var i :| 0 <= i < |arcs| && KeyOf(arcs[i], dir) == k;
      assert arcs[i] in arcs;
      assert ArcIn(ts, k, arcs[i].x);
      ValuesExact(arcs, ts, dir, sid, n, tid, engines, k);
    }
    if k.dir == dir && Picked(k.vid, sid, n, tid, engines) && Wanted(ts, k) {
      var x: nat :| ArcIn(ts, k, x);
      var a := Arc(k.vid, k.pid, x);
      assert KeyOf(a, dir) == k;
      assert a in arcs;
    }
  }

  lemma ValuesExact(arcs: seq<Arc>, ts: seq<Triple>, dir: nat, sid: nat, n: nat, tid: nat, engines: nat, k: HT.Key)
    requires n > 0 && engines > 0 && ArcsOf(arcs, ts, dir, sid, n, tid, engines) && (dir == GS.DIR_IN || dir == GS.DIR_OUT)
    requires k.dir == dir && Picked(k.vid, sid, n, tid, engines) && (dir == GS.DIR_OUT || !IsIndexId(k.vid))
    ensures ExactList(Values(arcs, dir, k), ts, k) && OnceList(Values(arcs, dir, k), ts, k, n, engines)
  {
    hide Picked, Values, Sorted, StaysOnce, Copies;
    var vs := Values(arcs, dir, k);
    ValuesDistinct(arcs, dir, k);
    ValuesAscend(arcs, dir, k);
    forall x: nat
      ensures x in vs <==> ArcIn(ts, k, x)
      ensures x in vs ==> Arc(k.vid, k.pid, x) in arcs
    {
      ValuesMembers(arcs, dir, k, x);
      assert KeyOf(Arc(k.vid, k.pid, x), dir) == k;
    }
    if dir == GS.DIR_OUT {
      Multiplicity(arcs);
    } else {
      forall x: nat | x in vs
        ensures multiset(arcs)[Arc(k.vid, k.pid, x)] <= 1 <==> StaysOnce(ts, Triple(x, k.pid, k.vid), n, engines)
        ensures Often(vs, x) == Copies(ts, Triple(x, k.pid, k.vid), n, engines)
      {
        ValuesCount(arcs, dir, k, x);
        assert TripleOf(Arc(k.vid, k.pid, x)) == Triple(x, k.pid, k.vid);
      }
    }
  }

  lemma OutAdded(lists0: Lists, lists: Lists, arcs: seq<Arc>, ts: seq<Triple>, sid: nat, n: nat, m: nat, engines: nat)
    requires n > 0 && engines > 0 && Exact(lists0, ts, sid, n, m, engines)
    requires ArcsOf(arcs, ts, GS.DIR_OUT, sid, n, m, engines) && Added(lists0, lists, arcs, GS.DIR_OUT)
    ensures Half(lists, ts, sid, n, m, engines)
  {
    hide Wanted, ExactList, OnceList, ArcsOf, Values, HasArc;
    forall k
      ensures k in lists <==>
        Wanted(ts, k) && (Mine(k.vid, sid, n, m, engines) || (Picked(k.vid, sid, n, m, engines) && k.dir == GS.DIR_OUT))
      ensures k in lists ==> ExactList(lists[k], ts, k) && OnceList(lists[k], ts, k, n, engines)
    {
      HasArcMeans(arcs, ts, GS.DIR_OUT, sid, n, m, engines, k);
    }
  }

  lemma InAdded(lists0: Lists, lists: Lists, arcs: seq<Arc>, ts: seq<Triple>, sid: nat, n: nat, m: nat, engines: nat)
    requires n > 0 && engines > 0 && Half(lists0, ts, sid, n, m, engines)
    requires ArcsOf(arcs, ts, GS.DIR_IN, sid, n, m, engines) && Added(lists0, lists, arcs, GS.DIR_IN)
    ensures Exact(lists, ts, sid, n, m + 1, engines)
  {
    hide ExactList, OnceList, ArcsOf, Values, HasArc;
    forall k
      ensures k in lists <==> Mine(k.vid, sid, n, m + 1, engines) && Wanted(ts, k)
      ensures k in lists ==> ExactList(lists[k], ts, k) && OnceList(lists[k], ts, k, n, engines)
    {
      HasArcMeans(arcs, ts, GS.DIR_IN, sid, n, m, engines, k);
      assert Wanted(ts, k) ==> k.dir == GS.DIR_OUT || k.dir == GS.DIR_IN;
      assert Mine(k.vid, sid, n, m + 1, engines) <==> Mine(k.vid, sid, n, m, engines) || Picked(k.vid, sid, n, m, engines);
    }
  }

  lemma OutSeparate(lists: Lists, arcs: seq<Arc>, ts: seq<Triple>, sid: nat, n: nat, m: nat, engines: nat)
    requires n > 0 && engines > 0 && AllGood(ts) && Exact(lists, ts, sid, n, m, engines) && ArcsOf(arcs, ts, GS.DIR_OUT, sid, n, m, engines)
    ensures Separate(lists, arcs, GS.DIR_OUT)
  {
    forall i | 0 <= i < |arcs|
      ensures KeyOf(arcs[i], GS.DIR_OUT) !in lists && arcs[i].v > 0
    {
      assert arcs[i] in arcs;
      assert Triple(arcs[i].v, arcs[i].p, arcs[i].x) in ts;
    }
  }

  lemma InSeparate(lists: Lists, arcs: seq<Arc>, ts: seq<Triple>, sid: nat, n: nat, m: nat, engines: nat)
    requires n > 0 && engines > 0 && AllGood(ts) && Half(lists, ts, sid, n, m, engines) && ArcsOf(arcs, ts, GS.DIR_IN, sid, n, m, engines)
    ensures Separate(lists, arcs, GS.DIR_IN)
  {
    forall i | 0 <= i < |arcs|
      ensures KeyOf(arcs[i], GS.DIR_IN) !in lists && arcs[i].v > 0
    {
      assert arcs[i] in arcs;
      assert Triple(arcs[i].x, arcs[i].p, arcs[i].v) in ts;
    }
  }

  /** The keys of a server, normal and index ones. */
  ghost function KeysOf(ts: seq<Triple>, sid: nat, n: nat): set<HT.Key>
    requires n > 0
  {
    OutKeys(ts, sid, n) + InKeys(ts, sid, n) + SubjectKeys(ts, sid, n) + ObjectKeys(ts, sid, n)
  }

  ghost function OutKeys(ts: seq<Triple>, sid: nat, n: nat): set<HT.Key>
    requires n > 0
  {
    set t | t in ts && t.s % n == sid :: HT.Key(t.s, t.p, GS.DIR_OUT)
  }

  ghost function InKeys(ts: seq<Triple>, sid: nat, n: nat): set<HT.Key>
    requires n > 0
  {
    set t | t in ts && t.o % n == sid && !IsIndexId(t.o) :: HT.Key(t.o, t.p, GS.DIR_IN)
  }

  ghost function SubjectKeys(ts: seq<Triple>, sid: nat, n: nat): set<HT.Key>
    requires n > 0
  {
    set t | t in ts && t.s % n == sid :: IndexKey(if t.p == TYPE_ID then t.o else t.p, GS.DIR_IN)
  }

  ghost function ObjectKeys(ts: seq<Triple>, sid: nat, n: nat): set<HT.Key>
    requires n > 0
  {
    set t | t in ts && t.o % n == sid && !IsIndexId(t.o) :: IndexKey(t.p, GS.DIR_OUT)
  }

  /** The entries that threads a up to b of a server store. */
  ghost function ThreadsNeed(ts: seq<Triple>, sid: nat, n: nat, a: nat, b: nat, engines: nat): nat
    requires n > 0 && engines > 0
  {
    |OutOf(ts, sid, n, a, b, engines)| + Runs(ts, sid, n, a, b, engines)
  }

  lemma OneMoreThread(ts: seq<Triple>, sid: nat, n: nat, m: nat, engines: nat)
    requires n > 0 && engines > 0
    ensures ThreadsNeed(ts, sid, n, 0, m + 1, engines) == ThreadsNeed(ts, sid, n, 0, m, engines) + ThreadsNeed(ts, sid, n, m, m + 1, engines)
  {
    hide OutOf, Runs;
    OutOfMore(ts, sid, n, m, engines);
    RunsMore(ts, sid, n, m, engines);
  }

  lemma {:induction false} NoThreads(ts: seq<Triple>, sid: nat, n: nat, engines: nat)
    requires n > 0 && engines > 0
    ensures ThreadsNeed(ts, sid, n, 0, 0, engines) == 0
    decreases |ts|
  {
    assert OutOf(ts, sid, n, 0, 0, engines) == {};
    if ts != [] { NoThreads(ts[..|ts| - 1], sid, n, engines); }
  }

  lemma ArcKeys(arcs: seq<Arc>, ts: seq<Triple>, dir: nat, sid: nat, n: nat, tid: nat, engines: nat)
    requires n > 0 && engines > 0 && ArcsOf(arcs, ts, dir, sid, n, tid, engines) && (dir == GS.DIR_IN || dir == GS.DIR_OUT)
    ensures forall i :: 0 <= i < |arcs| ==> KeyOf(arcs[i], dir) in KeysOf(ts, sid, n)
  {
    hide Sorted, Distinct, StaysOnce;
    forall i | 0 <= i < |arcs|
      ensures KeyOf(arcs[i], dir) in KeysOf(ts, sid, n)
    {
      var a := arcs[i];
      assert a in arcs;
      if dir == GS.DIR_OUT { assert Triple(a.v, a.p, a.x) in ts; } else { assert Triple(a.x, a.p, a.v) in ts; }
    }
  }

  lemma SkippedSize(ops: seq<Arc>, types: nat)
    requires types <= |ops| && (forall a :: a in ops[types..] ==> !IsIndexId(a.v)) && forall a :: a in ops[..types] ==> IsIndexId(a.v)
    ensures |ops[types..]| == Plain(ops)
  {
    assert ops == ops[..types] + ops[types..];
    PlainConcat(ops[..types], ops[types..]);
    PlainAll(ops[types..]);
    PlainNone(ops[..types]);
  }

  lemma {:induction false} PlainAll(s: seq<Arc>)
    requires forall a :: a in s ==> !IsIndexId(a.v)
    ensures Plain(s) == |s|
  {
    if s != [] { PlainAll(s[..|s| - 1]); }
  }

  lemma {:induction false} PlainNone(s: seq<Arc>)
    requires forall a :: a in s ==> IsIndexId(a.v)
    ensures Plain(s) == 0
  {
    if s != [] { PlainNone(s[..|s| - 1]); }
  }

  /** One thread's part of the normal load. */
  method LoadThread(server: GS.Server, ts: seq<Triple>, sid: nat, n: nat, tid: nat, engines: nat) returns (r: GS.Put)
    requires server.Valid() && n > 0 && engines > 0 && AllGood(ts) && Exact(server.lists, ts, sid, n, tid, engines)
    requires OnTheWay(server, KeysOf(ts, sid, n))
    modifies server, server.table, server.table.vertices, server.edges
    ensures server.Valid() && r != GS.Conflict
    ensures r == GS.Done ==> Exact(server.lists, ts, sid, n, tid + 1, engines) && OnTheWay(server, KeysOf(ts, sid, n))
    ensures Ends(r, old(server.lastEntry), ThreadsNeed(ts, sid, n, tid, tid + 1, engines), server.lastEntry,
                 server.edges.Length, server.table.numBucketsExt, Over(server, KeysOf(ts, sid, n)))
  {
    hide Copies, Ends, KeysOf, OnTheWay, Runs, OutOf, Plain, Exact, Half, Added, Sorted, Distinct, GS.ListsOk, HT.TableOk, HT.Refines, Separate, Picked, AllGood, GoodTriple, StaysOnce;
    var spo, ops := AggregateData(ts, sid, n, tid, engines);
    ArcsReady(spo, ops, ts, sid, n, tid, engines);
    ghost var lists0 := server.lists;
    OutSeparate(lists0, spo, ts, sid, n, tid, engines);
    ghost var keys, ext, entries := KeysOf(ts, sid, n), server.table.numBucketsExt, server.edges.Length;
    ghost var over := Over(server, keys);
    ghost var inSize := Runs(ts, sid, n, tid, tid + 1, engines);
    ArcKeys(spo, ts, GS.DIR_OUT, sid, n, tid, engines);
    r := InsertArcs(server, spo, GS.DIR_OUT, keys);
    ghost var between := server.lastEntry;
    if r != GS.Done {
      EndsEarly(r, old(server.lastEntry), |spo|, inSize, between, entries, ext, over);
      return;
    }
    ghost var lists1 := server.lists;
    OutAdded(lists0, lists1, spo, ts, sid, n, tid, engines);
    var types := SkipTypes(ops);
    InArcsReady(ops, types, ts, sid, n, tid, engines);
    InSeparate(lists1, ops[types..], ts, sid, n, tid, engines);
    ArcKeys(ops[types..], ts, GS.DIR_IN, sid, n, tid, engines);
    SkippedSize(ops, types);
    r := InsertArcs(server, ops[types..], GS.DIR_IN, keys);
    EndsLater(r, old(server.lastEntry), |spo|, between, inSize, server.lastEntry, entries, ext, over);
    if r == GS.Done { InAdded(lists1, server.lists, ops[types..], ts, sid, n, tid, engines); }
  }

  lemma ArcsReady(spo: seq<Arc>, ops: seq<Arc>, ts: seq<Triple>, sid: nat, n: nat, tid: nat, engines: nat)
    requires n > 0 && engines > 0 && AllGood(ts) && Sorted(spo) && Distinct(spo)
    requires forall a :: a in spo <==> Triple(a.v, a.p, a.x) in ts && Picked(a.v, sid, n, tid, engines)
    requires forall a :: a in ops <==> TripleOf(a) in ts && Picked(a.v, sid, n, tid, engines)
    ensures ArcsOf(spo, ts, GS.DIR_OUT, sid, n, tid, engines)
    ensures forall a :: a in ops ==> a.v > 1
  {
    hide Picked, Sorted, Distinct, StaysOnce;
    forall a | a in ops
      ensures a.v > 1
    {
      assert Triple(a.x, a.p, a.v) in ts;
    }
  }

  lemma InArcsReady(ops: seq<Arc>, types: nat, ts: seq<Triple>, sid: nat, n: nat, tid: nat, engines: nat)
    requires n > 0 && engines > 0 && types <= |ops| && Sorted(ops)
    requires forall a :: a in ops <==> TripleOf(a) in ts && Picked(a.v, sid, n, tid, engines)
    requires forall a :: a in ops ==> (multiset(ops)[a] <= 1 <==> StaysOnce(ts, TripleOf(a), n, engines))
    requires forall a :: a in ops ==> multiset(ops)[a] == Copies(ts, TripleOf(a), n, engines)
    requires forall a :: a in ops[types..] <==> a in ops && !IsIndexId(a.v)
    requires forall a :: a in ops[..types] ==> IsIndexId(a.v)
    ensures ArcsOf(ops[types..], ts, GS.DIR_IN, sid, n, tid, engines)
  {
    hide Picked, StaysOnce, Sorted, Copies;
    SuffixSorted(ops, types);
    SuffixCounts(ops, types);
  }

  lemma SuffixCounts(ops: seq<Arc>, types: nat)
    requires types <= |ops|
    requires forall a :: a in ops[types..] ==> !IsIndexId(a.v)
    requires forall a :: a in ops[..types] ==> IsIndexId(a.v)
    ensures forall a :: a in ops[types..] ==> multiset(ops[types..])[a] == multiset(ops)[a]
  {
    hide IsIndexId;
    var types', rest := ops[..types], ops[types..];
    assert ops == types' + rest;
    forall a | a in rest
      ensures multiset(rest)[a] == multiset(ops)[a]
    {
      assert a !in types';
      assert a !in multiset(types');
    }
  }

  /** All threads. */
  method LoadNormal(server: GS.Server, ts: seq<Triple>, sid: nat, n: nat, engines: nat) returns (r: GS.Put)
    requires server.Valid() && server.lists == map[] && server.table.lastExt == 0 && server.table.numBuckets > 0 && n > 0 && engines > 0 && AllGood(ts)
    modifies server, server.table, server.table.vertices, server.edges
    ensures server.Valid() && r != GS.Conflict
    ensures r == GS.Done ==> Exact(server.lists, ts, sid, n, engines, engines) && OnTheWay(server, KeysOf(ts, sid, n))
    ensures Ends(r, old(server.lastEntry), ThreadsNeed(ts, sid, n, 0, engines, engines), server.lastEntry,
                 server.edges.Length, server.table.numBucketsExt, Over(server, KeysOf(ts, sid, n)))
  {
    hide Exact, Half, Added, GS.ListsOk, HT.TableOk, HT.Refines, AllGood, ThreadsNeed, KeysOf;
    NothingLoaded(ts, sid, n, engines);
    NoThreads(ts, sid, n, engines);
    HT.NoDemand(server.table.hash, server.table.numBuckets, server.table.numBuckets);
    assert server.lists.Keys == {};
    ghost var keys, ext, entries, start := KeysOf(ts, sid, n), server.table.numBucketsExt, server.edges.Length, server.lastEntry;
    ghost var over := Over(server, keys);
    for tid := 0 to engines
      invariant server.Valid() && Exact(server.lists, ts, sid, n, tid, engines) && OnTheWay(server, keys)
      invariant Ends(GS.Done, start, ThreadsNeed(ts, sid, n, 0, tid, engines), server.lastEntry, entries, ext, over)
    {
      ghost var between := server.lastEntry;
      r := LoadThread(server, ts, sid, n, tid, engines);
      OneMoreThread(ts, sid, n, tid, engines);
      EndsLater(r, start, ThreadsNeed(ts, sid, n, 0, tid, engines), between, ThreadsNeed(ts, sid, n, tid, tid + 1, engines),
                server.lastEntry, entries, ext, over);
      if r != GS.Done {
        MoreThreads(ts, sid, n, tid + 1, engines, engines);
        EndsEarly(r, start, ThreadsNeed(ts, sid, n, 0, tid + 1, engines),
                  ThreadsNeed(ts, sid, n, 0, engines, engines) - ThreadsNeed(ts, sid, n, 0, tid + 1, engines),
                  server.lastEntry, entries, ext, over);
        return;
      }
    }
    r := GS.Done;
  }

  lemma {:induction false} MoreThreads(ts: seq<Triple>, sid: nat, n: nat, a: nat, b: nat, engines: nat)
    requires n > 0 && engines > 0 && a <= b
    ensures ThreadsNeed(ts, sid, n, 0, a, engines) <= ThreadsNeed(ts, sid, n, 0, b, engines)
    decreases b
  {
    hide ThreadsNeed;
    if a < b {
      MoreThreads(ts, sid, n, a, b - 1, engines);
      OneMoreThread(ts, sid, n, b - 1, engines);
    }
  }

  lemma NothingLoaded(ts: seq<Triple>, sid: nat, n: nat, engines: nat)
    requires n > 0 && engines > 0
    ensures Exact(map[], ts, sid, n, 0, engines)
  {
  }

  // ---- index lists ----

  type IndexMap = map<nat, seq<nat>>

  function Get(m: IndexMap, p: nat): seq<nat> { if p in m then m[p] else [] }

  /** The vertices entered under index id p, in order. */
  ghost function For(entries: seq<(nat, nat)>, p: nat): seq<nat> {
    if entries == [] then []
    else For(entries[..|entries| - 1], p) + if entries[|entries| - 1].0 == p then [entries[|entries| - 1].1] else []
  }

  ghost predicate IndexOf(m: IndexMap, entries: seq<(nat, nat)>) {
    (forall p :: Get(m, p) == For(entries, p) && (p in m <==> For(entries, p) != [])) && SizeOf(m) == |entries|
  }

  /** The length of the lists under some ids, and under all. */
  ghost function SizeOver(m: IndexMap, ids: set<nat>): nat
    requires ids <= m.Keys
  {
    if ids == {} then 0
    else
      var p :| p in ids;
      |m[p]| + SizeOver(m, ids - {p})
  }

  ghost function SizeOf(m: IndexMap): nat { SizeOver(m, m.Keys) }

  lemma {:induction false} SizeWithout(m: IndexMap, ids: set<nat>, p: nat)
    requires ids <= m.Keys && p in ids
    ensures SizeOver(m, ids) == |m[p]| + SizeOver(m, ids - {p})
    decreases |ids|
  {
    var q :| q in ids && SizeOver(m, ids) == |m[q]| + SizeOver(m, ids - {q});
    if p != q {
      SizeWithout(m, ids - {q}, p);
      SizeWithout(m, ids - {p}, q);
      assert ids - {q} - {p} == ids - {p} - {q};
    }
  }

  lemma {:induction false} SizeSame(m: IndexMap, m': IndexMap, ids: set<nat>)
    requires ids <= m.Keys && ids <= m'.Keys && forall p :: p in ids ==> m[p] == m'[p]
    ensures SizeOver(m, ids) == SizeOver(m', ids)
    decreases |ids|
  {
    if ids != {} {
      var p :| p in ids;
      SizeWithout(m, ids, p);
      SizeWithout(m', ids, p);
      SizeSame(m, m', ids - {p});
    }
  }

  lemma NoSize(m: IndexMap)
    ensures SizeOver(m, {}) == 0
  {
  }

  lemma SizeAdd(m: IndexMap, p: nat, v: nat)
    ensures SizeOf(m[p := Get(m, p) + [v]]) == SizeOf(m) + 1
  {
    var m' := m[p := Get(m, p) + [v]];
    SizeWithout(m', m'.Keys, p);
    assert m'.Keys - {p} == m.Keys - {p};
    SizeSame(m, m', m.Keys - {p});
    if p in m { SizeWithout(m, m.Keys, p); } else { assert m.Keys - {p} == m.Keys; }
  }

  method AddTo(m: IndexMap, p: nat, v: nat, ghost entries: seq<(nat, nat)>) returns (r: IndexMap)
    requires IndexOf(m, entries)
    ensures IndexOf(r, entries + [(p, v)])
  {
    ghost var e := entries + [(p, v)];
    assert e[..|entries|] == entries;
    assert forall q :: For(e, q) == For(entries, q) + if q == p then [v] else [];
    SizeAdd(m, p, v);
    r := m[p := Get(m, p) + [v]];
  }

  lemma {:induction false} ForMembers(entries: seq<(nat, nat)>, p: nat, v: nat)
    ensures v in For(entries, p) <==> (p, v) in entries
  {
    if entries != [] {
      ForMembers(entries[..|entries| - 1], p, v);
      assert entries == entries[..|entries| - 1] + [entries[|entries| - 1]];
    }
  }

  lemma {:induction false} ForDistinct(entries: seq<(nat, nat)>, p: nat)
    requires Distinct(entries)
    ensures Distinct(For(entries, p))
  {
    if entries != [] {
      var front, last := entries[..|entries| - 1], entries[|entries| - 1];
      ForDistinct(front, p);
      ForMembers(front, p, last.1);
      assert entries == front + [last] && last !in front;
      DistinctConcat(For(front, p), if last.0 == p then [last.1] else []);
    }
  }

  ghost predicate Seen(used: seq<HT.Vertex>, i: nat, k: HT.Key)
    requires i <= |used|
  {
    exists j :: 0 <= j < i && used[j].key == k
  }

  lemma SeenNext(used: seq<HT.Vertex>, i: nat, k: HT.Key)
    requires i < |used|
    ensures Seen(used, i + 1, k) <==> Seen(used, i, k) || used[i].key == k
  {
  }

  ghost predicate IsPredicate(p: nat) { p != PREDICATE_ID && p != TYPE_ID }

  /** The entries of a predicate index, from the keys of the first i slots. */
  ghost predicate PredEntries(es: seq<(nat, nat)>, used: seq<HT.Vertex>, i: nat, dir: nat)
    requires i <= |used|
  {
    Distinct(es) && forall p: nat, v: nat :: (p, v) in es <==> IsPredicate(p) && Seen(used, i, HT.Key(v, p, dir))
  }

  /** The entries of the type index. */
  ghost predicate TypeEntries(es: seq<(nat, nat)>, used: seq<HT.Vertex>, i: nat, lists: Lists)
    requires i <= |used|
  {
    && Distinct(es)
    && forall t: nat, v: nat :: (t, v) in es <==> Seen(used, i, TypeKey(v)) && HasElement(lists, TypeKey(v), t)
  }

  function TypeKey(v: nat): HT.Key { HT.Key(v, TYPE_ID, GS.DIR_OUT) }

  ghost predicate HasElement(lists: Lists, k: HT.Key, x: nat) { k in lists && x in lists[k] }

  ghost predicate DistinctKeys(used: seq<HT.Vertex>) { forall i, j :: 0 <= i < j < |used| ==> used[i].key != used[j].key }

  lemma PredNext(es: seq<(nat, nat)>, used: seq<HT.Vertex>, i: nat, dir: nat)
    requires i < |used| && PredEntries(es, used, i, dir) && DistinctKeys(used)
    ensures var k := used[i].key;
      PredEntries(if k.dir == dir && IsPredicate(k.pid) then es + [(k.pid, k.vid)] else es, used, i + 1, dir)
  {
    hide IsPredicate;
    var k := used[i].key;
    var es' := if k.dir == dir && IsPredicate(k.pid) then es + [(k.pid, k.vid)] else es;
    forall p: nat, v: nat
      ensures (p, v) in es' <==> IsPredicate(p) && Seen(used, i + 1, HT.Key(v, p, dir))
    {
      SeenNext(used, i, HT.Key(v, p, dir));
    }
    if k.dir == dir && IsPredicate(k.pid) {
      assert !Seen(used, i, HT.Key(k.vid, k.pid, dir));
      DistinctConcat(es, [(k.pid, k.vid)]);
    }
  }

  lemma TypeNext(es: seq<(nat, nat)>, used: seq<HT.Vertex>, i: nat, lists: Lists, added: seq<(nat, nat)>)
    requires i < |used| && TypeEntries(es, used, i, lists) && DistinctKeys(used)
    requires var k := used[i].key; if k == TypeKey(k.vid) then
      Distinct(added) && (forall t: nat, v: nat :: (t, v) in added <==> v == k.vid && HasElement(lists, k, t)) else added == []
    ensures TypeEntries(es + added, used, i + 1, lists)
  {
    hide HasElement;
    var k := used[i].key;
    forall t: nat, v: nat
      ensures (t, v) in es + added <==> Seen(used, i + 1, TypeKey(v)) && HasElement(lists, TypeKey(v), t)
    {
      SeenNext(used, i, TypeKey(v));
    }
    if k == TypeKey(k.vid) {
      assert !Seen(used, i, TypeKey(k.vid));
      forall e | e in es
        ensures e !in added
      {
        assert e == (e.0, e.1);
      }
      DistinctConcat(es, added);
    } else {
      assert es + added == es;
    }
  }

  /** The instances of a vertex's types. */
  method AddTypes(m: IndexMap, types: seq<nat>, v: nat, ghost entries: seq<(nat, nat)>) returns (r: IndexMap, ghost added: seq<(nat, nat)>)
    requires IndexOf(m, entries) && Distinct(types)
    ensures IndexOf(r, entries + added) && Distinct(added)
    ensures forall t: nat, u: nat :: (t, u) in added <==> u == v && t in types
  {
    hide IndexOf;
    r, added := m, [];
    assert entries + [] == entries;
    for e := 0 to |types|
      invariant IndexOf(r, entries + added) && Distinct(added)
      invariant forall t: nat, u: nat :: (t, u) in added <==> u == v && t in types[..e]
    {
      r := AddTo(r, types[e], v, entries + added);
      assert entries + added + [(types[e], v)] == entries + (added + [(types[e], v)]);
      assert types[e] !in types[..e];
      assert types[..e + 1] == types[..e] + [types[e]];
      DistinctConcat(added, [(types[e], v)]);
      added := added + [(types[e], v)];
    }
    assert types[..|types|] == types;
  }

  /** What the scan of the table collects. */
  datatype Indexes = Indexes(types: IndexMap, predIn: IndexMap, predOut: IndexMap)

  ghost predicate Scanned(x: Indexes, t: seq<(nat, nat)>, pi: seq<(nat, nat)>, po: seq<(nat, nat)>, used: seq<HT.Vertex>, i: nat, lists: Lists)
    requires i <= |used|
  {
    && IndexOf(x.types, t) && IndexOf(x.predIn, pi) && IndexOf(x.predOut, po)
    && TypeEntries(t, used, i, lists) && PredEntries(pi, used, i, GS.DIR_OUT) && PredEntries(po, used, i, GS.DIR_IN)
  }

  /** No in-list is kept under the type predicate, directions are one of two, and out-lists are
      free of repetition. */
  ghost predicate KeysFit(lists: Lists) {
    forall k :: k in lists ==>
      && (k.dir == GS.DIR_IN || k.dir == GS.DIR_OUT) && (k.dir == GS.DIR_IN ==> k.pid != TYPE_ID)
      && (k.dir == GS.DIR_OUT ==> Distinct(lists[k]))
  }

  method ScanTable(server: GS.Server) returns (x: Indexes, ghost t: seq<(nat, nat)>, ghost pi: seq<(nat, nat)>, ghost po: seq<(nat, nat)>, ghost used: seq<HT.Vertex>)
    requires server.Valid() && KeysFit(server.lists)
    ensures Scanned(x, t, pi, po, used, |used|, server.lists)
    ensures forall k :: k in server.lists <==> Seen(used, |used|, k)
  {
    hide HT.TableOk, HT.Refines, Scanned;
    var slots := server.table.UsedSlots();
    used := slots;
    x, t, pi, po := Indexes(map[], map[], map[]), [], [], [];
    NothingScanned(used, server.lists);
    for i := 0 to |slots|
      invariant Scanned(x, t, pi, po, used, i, server.lists)
    {
      var list := server.edges[slots[i].ptr.off..slots[i].ptr.off + slots[i].ptr.size];
      assert list == server.lists[slots[i].key];
      x, t, pi, po := ScanSlot(x, slots[i].key, list, t, pi, po, used, i, server.lists);
    }
  }

  lemma NothingScanned(used: seq<HT.Vertex>, lists: Lists)
    ensures Scanned(Indexes(map[], map[], map[]), [], [], [], used, 0, lists)
  {
  }

  method ScanSlot(x0: Indexes, k: HT.Key, list: seq<nat>, ghost t0: seq<(nat, nat)>, ghost pi0: seq<(nat, nat)>, ghost po0: seq<(nat, nat)>,
                  ghost used: seq<HT.Vertex>, ghost i: nat, ghost lists: Lists)
    returns (x: Indexes, ghost t: seq<(nat, nat)>, ghost pi: seq<(nat, nat)>, ghost po: seq<(nat, nat)>)
    requires i < |used| && Scanned(x0, t0, pi0, po0, used, i, lists) && used[i].key == k && DistinctKeys(used)
    requires k in lists && lists[k] == list && KeysFit(lists)
    ensures Scanned(x, t, pi, po, used, i + 1, lists)
  {
    hide IndexOf, Seen, PredEntries, TypeEntries, Distinct;
    x, t, pi, po := x0, t0, pi0, po0;
    PredNext(pi, used, i, GS.DIR_OUT);
    PredNext(po, used, i, GS.DIR_IN);
    ghost var added := [];
    if k.dir == GS.DIR_IN {
      if k.pid != PREDICATE_ID {
        if k.pid == TYPE_ID { assert false; }
        else {
          var m := AddTo(x.predOut, k.pid, k.vid, po);
          x, po := x.(predOut := m), po + [(k.pid, k.vid)];
        }
      }
    } else if k.pid != PREDICATE_ID {
      if k.pid == TYPE_ID {
        var m;
        m, added := AddTypes(x.types, list, k.vid, t);
        x := x.(types := m);
      } else {
        var m := AddTo(x.predIn, k.pid, k.vid, pi);
        x, pi := x.(predIn := m), pi + [(k.pid, k.vid)];
      }
    }
    TypeNext(t, used, i, lists, added);
    assert added == [] ==> t + added == t;
    t := t + added;
  }

  function IndexKey(p: nat, dir: nat): HT.Key { HT.Key(0, p, dir) }

  /** The index lists of map m, except those left, are in. */
  ghost predicate IndexAdded(lists0: Lists, lists: Lists, m: IndexMap, left: set<nat>, dir: nat) {
    && (forall k :: k in lists <==> k in lists0 || (k == IndexKey(k.pid, dir) && k.pid in m && k.pid !in left))
    && (forall k :: k in lists0 ==> k in lists && lists[k] == lists0[k])
    && forall p :: p in m && p !in left ==> IndexKey(p, dir) in lists && lists[IndexKey(p, dir)] == m[p]
  }

  lemma NoIndexAdded(lists: Lists, m: IndexMap, dir: nat)
    ensures IndexAdded(lists, lists, m, m.Keys, dir)
  {
  }

  lemma IndexAddedNext(lists0: Lists, lists: Lists, m: IndexMap, left: set<nat>, p: nat, dir: nat)
    requires IndexAdded(lists0, lists, m, left, dir) && p in left && left <= m.Keys && IndexKey(p, dir) !in lists0
    ensures IndexKey(p, dir) !in lists && IndexAdded(lists0, lists[IndexKey(p, dir) := m[p]], m, left - {p}, dir)
  {
  }

  method InsertIndexMap(server: GS.Server, m: IndexMap, dir: nat, ghost keys: set<HT.Key>) returns (r: GS.Put)
    requires server.Valid() && forall p :: p in m ==> IndexKey(p, dir) !in server.lists && p > 0
    requires OnTheWay(server, keys) && forall p :: p in m ==> IndexKey(p, dir) in keys && m[p] != []
    modifies server, server.table, server.table.vertices, server.edges
    ensures server.Valid() && r != GS.Conflict
    ensures r == GS.Done ==> IndexAdded(old(server.lists), server.lists, m, {}, dir) && OnTheWay(server, keys)
    ensures Ends(r, old(server.lastEntry), SizeOf(m), server.lastEntry, server.edges.Length, server.table.numBucketsExt, Over(server, keys))
  {
    hide GS.ListsOk, HT.TableOk, HT.Refines, SizeOver, IndexAdded, OnTheWay;
    ghost var lists0, start := server.lists, server.lastEntry;
    var todo := m.Keys;
    NoIndexAdded(lists0, m, dir);
    while todo != {}
      invariant server.Valid() && todo <= m.Keys && IndexAdded(lists0, server.lists, m, todo, dir) && OnTheWay(server, keys)
      invariant server.lastEntry + SizeOver(m, todo) == start + SizeOf(m)
      invariant server.lastEntry >= start && (server.lastEntry > start ==> server.lastEntry < server.edges.Length)
      decreases todo
    {
      var p := Iteration.Any(todo);
      SizeWithout(m, todo, p);
      IndexAddedNext(lists0, server.lists, m, todo, p, dir);
      r := PutNext(server, IndexKey(p, dir), m[p], keys);
      if r != GS.Done { return; }
      todo := todo - {p};
    }
    NoSize(m);
    r := GS.Done;
  }

  /** The vertex has an edge of predicate p in direction dir. */
  ghost predicate Touches(ts: seq<Triple>, p: nat, dir: nat, v: nat) { exists x: nat :: ArcIn(ts, HT.Key(v, p, dir), x) }

  /** The vertices of this server that an index id stands for. */
  ghost predicate Qualifies(ts: seq<Triple>, p: nat, dir: nat, v: nat) {
    if dir == GS.DIR_OUT then IsPredicate(p) && Touches(ts, p, GS.DIR_IN, v)
    else Triple(v, TYPE_ID, p) in ts || (IsPredicate(p) && Touches(ts, p, GS.DIR_OUT, v))
  }

  /** Types and predicates have different ids. */
  ghost predicate KindsApart(ts: seq<Triple>) {
    forall i, j :: 0 <= i < |ts| && 0 <= j < |ts| && ts[i].p == TYPE_ID ==> ts[i].o != ts[j].p
  }

  function ListAt(lists: Lists, k: HT.Key): seq<nat> { if k in lists then lists[k] else [] }

  /** What a server's store holds after the load: for every vertex of its own exactly the
      wanted lists, for every index id exactly its own qualifying vertices, and nothing else. */
  ghost predicate Loaded(lists: Lists, ts: seq<Triple>, sid: nat, n: nat)
    requires n > 0
  {
    && (forall k :: k in lists ==> k.pid > 0 && k.dir <= 1 && lists[k] != [])
    && (forall k: HT.Key :: k.vid > 0 ==> (k in lists <==> k.vid % n == sid && Wanted(ts, k)))
    && (forall k: HT.Key :: k.vid > 0 && k in lists ==> ExactList(lists[k], ts, k))
    && forall p: nat, dir: nat :: p > 0 && dir <= 1 ==> IndexExact(ListAt(lists, IndexKey(p, dir)), ts, p, dir, sid, n)
  }

  /** For each in-list, when it is free of repetition. */
  ghost predicate InListsOnce(lists: Lists, ts: seq<Triple>, n: nat, engines: nat)
    requires n > 0 && engines > 0
  {
    forall k :: k in lists && k.vid > 0 ==> OnceList(lists[k], ts, k, n, engines)
  }

  ghost predicate IndexExact(list: seq<nat>, ts: seq<Triple>, p: nat, dir: nat, sid: nat, n: nat)
    requires n > 0
  {
    Distinct(list) && forall v: nat :: v in list <==> v % n == sid && Qualifies(ts, p, dir, v)
  }

  lemma AllMine(v: nat, sid: nat, n: nat, engines: nat)
    requires n > 0 && engines > 0
    ensures Mine(v, sid, n, engines, engines) <==> v % n == sid
  {
  }

  lemma NormalFits(lists: Lists, ts: seq<Triple>, sid: nat, n: nat, engines: nat)
    requires n > 0 && engines > 0 && AllGood(ts) && Exact(lists, ts, sid, n, engines, engines)
    ensures KeysFit(lists) && forall k :: k in lists ==> k.vid > 0
  {
    forall k | k in lists
      ensures (k.dir == GS.DIR_IN || k.dir == GS.DIR_OUT) && (k.dir == GS.DIR_IN ==> k.pid != TYPE_ID) && k.vid > 0
    {
      var x: nat :| ArcIn(ts, k, x);
    }
  }

  /** A predicate index as collected, in terms of the triples. */
  lemma PredMeans(m: IndexMap, es: seq<(nat, nat)>, used: seq<HT.Vertex>, lists: Lists, dir: nat, ts: seq<Triple>, sid: nat, n: nat, engines: nat, p: nat)
    requires n > 0 && engines > 0 && AllGood(ts) && Exact(lists, ts, sid, n, engines, engines)
    requires IndexOf(m, es) && PredEntries(es, used, |used|, dir) && (dir == GS.DIR_IN || dir == GS.DIR_OUT)
    requires forall k :: k in lists <==> Seen(used, |used|, k)
    ensures Distinct(Get(m, p)) && forall v: nat :: v in Get(m, p) <==>
      v % n == sid && IsPredicate(p) && Touches(ts, p, dir, v)
    ensures p in m ==> IsPredicate(p)
  {
    hide Exact, Seen, AllGood;
    ForDistinct(es, p);
    forall v: nat
      ensures v in Get(m, p) <==> v % n == sid && IsPredicate(p) && Touches(ts, p, dir, v)
    {
      ForMembers(es, p, v);
      PredVertex(lists, dir, ts, sid, n, engines, p, v);
    }
    if p in m {
      assert Get(m, p)[0] in Get(m, p);
    }
  }

  lemma PredVertex(lists: Lists, dir: nat, ts: seq<Triple>, sid: nat, n: nat, engines: nat, p: nat, v: nat)
    requires n > 0 && engines > 0 && AllGood(ts) && Exact(lists, ts, sid, n, engines, engines) && (dir == GS.DIR_IN || dir == GS.DIR_OUT)
    ensures IsPredicate(p) ==> (HT.Key(v, p, dir) in lists <==> v % n == sid && Touches(ts, p, dir, v))
  {
    AllMine(v, sid, n, engines);
    var k := HT.Key(v, p, dir);
    if IsPredicate(p) && Touches(ts, p, dir, v) {
      var x: nat :| ArcIn(ts, k, x);
      if dir == GS.DIR_IN {
        assert Triple(x, p, v) in ts;
        assert !IsIndexId(v);
      }
    }
  }

  /** The type index as collected, in terms of the triples. */
  lemma TypeMeans(m: IndexMap, es: seq<(nat, nat)>, used: seq<HT.Vertex>, lists: Lists, ts: seq<Triple>, sid: nat, n: nat, engines: nat, t: nat)
    requires n > 0 && engines > 0 && AllGood(ts) && Exact(lists, ts, sid, n, engines, engines)
    requires IndexOf(m, es) && TypeEntries(es, used, |used|, lists)
    requires forall k :: k in lists <==> Seen(used, |used|, k)
    ensures Distinct(Get(m, t)) && forall v: nat :: v in Get(m, t) <==> v % n == sid && Triple(v, TYPE_ID, t) in ts
    ensures t in m ==> exists v: nat :: Triple(v, TYPE_ID, t) in ts
  {
    hide Exact, Seen, AllGood;
    ForDistinct(es, t);
    forall v: nat
      ensures v in Get(m, t) <==> v % n == sid && Triple(v, TYPE_ID, t) in ts
    {
      ForMembers(es, t, v);
      TypeVertex(lists, ts, sid, n, engines, t, v);
    }
    if t in m {
      assert Get(m, t)[0] in Get(m, t);
    }
  }

  lemma TypeVertex(lists: Lists, ts: seq<Triple>, sid: nat, n: nat, engines: nat, t: nat, v: nat)
    requires n > 0 && engines > 0 && AllGood(ts) && Exact(lists, ts, sid, n, engines, engines)
    ensures HasElement(lists, TypeKey(v), t) <==> v % n == sid && Triple(v, TYPE_ID, t) in ts
  {
    AllMine(v, sid, n, engines);
    assert ArcIn(ts, TypeKey(v), t) <==> Triple(v, TYPE_ID, t) in ts;
  }

  /** The entries that the indexes take: one for each instance of a type, and one for each vertex
      and predicate that goes out from it or comes in. */
  ghost function TypesAt(ts: seq<Triple>, sid: nat, n: nat): set<(nat, nat)>
    requires n > 0
  {
    set t | t in ts && t.p == TYPE_ID && t.s % n == sid :: (t.o, t.s)
  }

  ghost function GoingOut(ts: seq<Triple>, sid: nat, n: nat): set<(nat, nat)>
    requires n > 0
  {
    set t | t in ts && IsPredicate(t.p) && t.s % n == sid :: (t.p, t.s)
  }

  ghost function ComingIn(ts: seq<Triple>, sid: nat, n: nat): set<(nat, nat)>
    requires n > 0
  {
    set t | t in ts && IsPredicate(t.p) && t.o % n == sid :: (t.p, t.o)
  }

  ghost function IndexNeeds(ts: seq<Triple>, sid: nat, n: nat): nat
    requires n > 0
  {
    |TypesAt(ts, sid, n)| + |GoingOut(ts, sid, n)| + |ComingIn(ts, sid, n)|
  }

  lemma IndexSizes(x: Indexes, t: seq<(nat, nat)>, pi: seq<(nat, nat)>, po: seq<(nat, nat)>, used: seq<HT.Vertex>, lists: Lists,
                   ts: seq<Triple>, sid: nat, n: nat)
    requires n > 0 && Scanned(x, t, pi, po, used, |used|, lists) && Fit(x, ts, sid, n)
    ensures SizeOf(x.types) + SizeOf(x.predIn) + SizeOf(x.predOut) == IndexNeeds(ts, sid, n)
  {
    hide Seen, SizeOf, For, Distinct;
    forall e: (nat, nat)
      ensures e in t <==> e in TypesAt(ts, sid, n)
      ensures e in pi <==> e in GoingOut(ts, sid, n)
      ensures e in po <==> e in ComingIn(ts, sid, n)
    {
      ForMembers(t, e.0, e.1);
      ForMembers(pi, e.0, e.1);
      ForMembers(po, e.0, e.1);
      EntryMeans(x, ts, sid, n, e.0, e.1);
      assert e == (e.0, e.1);
    }
    SizeOfSeq(t, TypesAt(ts, sid, n));
    SizeOfSeq(pi, GoingOut(ts, sid, n));
    SizeOfSeq(po, ComingIn(ts, sid, n));
  }

  lemma EntryMeans(x: Indexes, ts: seq<Triple>, sid: nat, n: nat, p: nat, v: nat)
    requires n > 0 && Fit(x, ts, sid, n)
    ensures v in Get(x.types, p) <==> (p, v) in TypesAt(ts, sid, n)
    ensures v in Get(x.predIn, p) <==> (p, v) in GoingOut(ts, sid, n)
    ensures v in Get(x.predOut, p) <==> (p, v) in ComingIn(ts, sid, n)
  {
    hide Distinct;
    if v in Get(x.types, p) { assert Triple(v, TYPE_ID, p) in ts; }
    if v in Get(x.predIn, p) {
      var o: nat :| ArcIn(ts, HT.Key(v, p, GS.DIR_OUT), o);
      assert Triple(v, p, o) in ts;
    }
    if v in Get(x.predOut, p) {
      var s: nat :| ArcIn(ts, HT.Key(v, p, GS.DIR_IN), s);
      assert Triple(s, p, v) in ts;
    }
    if (p, v) in GoingOut(ts, sid, n) {
      var t :| t in ts && t.p == p && t.s == v;
      assert ArcIn(ts, HT.Key(v, p, GS.DIR_OUT), t.o);
    }
    if (p, v) in ComingIn(ts, sid, n) {
      var t :| t in ts && t.p == p && t.o == v;
      assert ArcIn(ts, HT.Key(v, p, GS.DIR_IN), t.s);
    }
  }

  lemma IndexKeys(x: Indexes, ts: seq<Triple>, sid: nat, n: nat)
    requires n > 0 && AllGood(ts) && Fit(x, ts, sid, n)
    ensures forall p :: p in x.types ==> IndexKey(p, GS.DIR_IN) in KeysOf(ts, sid, n)
    ensures forall p :: p in x.predIn ==> IndexKey(p, GS.DIR_IN) in KeysOf(ts, sid, n)
    ensures forall p :: p in x.predOut ==> IndexKey(p, GS.DIR_OUT) in KeysOf(ts, sid, n)
  {
    hide Distinct;
    forall p | p in x.types
      ensures IndexKey(p, GS.DIR_IN) in KeysOf(ts, sid, n)
    {
      var v := x.types[p][0];
      assert v in Get(x.types, p);
      assert Triple(v, TYPE_ID, p) in ts;
    }
    forall p | p in x.predIn
      ensures IndexKey(p, GS.DIR_IN) in KeysOf(ts, sid, n)
    {
      var v := x.predIn[p][0];
      assert v in Get(x.predIn, p);
      var o: nat :| ArcIn(ts, HT.Key(v, p, GS.DIR_OUT), o);
      assert Triple(v, p, o) in ts;
    }
    forall p | p in x.predOut
      ensures IndexKey(p, GS.DIR_OUT) in KeysOf(ts, sid, n)
    {
      var v := x.predOut[p][0];
      assert v in Get(x.predOut, p);
      var s: nat :| ArcIn(ts, HT.Key(v, p, GS.DIR_IN), s);
      assert Triple(s, p, v) in ts && GoodTriple(Triple(s, p, v));
    }
  }

  /** Store the indexes; no key comes up twice. */
  method InsertIndex(server: GS.Server, ghost ts: seq<Triple>, ghost sid: nat, ghost n: nat, ghost engines: nat) returns (r: GS.Put)
    requires server.Valid() && n > 0 && engines > 0 && AllGood(ts) && KindsApart(ts)
    requires Exact(server.lists, ts, sid, n, engines, engines) && OnTheWay(server, KeysOf(ts, sid, n))
    modifies server, server.table, server.table.vertices, server.edges
    ensures server.Valid() && r != GS.Conflict
    ensures r == GS.Done ==> Loaded(server.lists, ts, sid, n) && InListsOnce(server.lists, ts, n, engines)
    ensures r == GS.Done ==> OnTheWay(server, KeysOf(ts, sid, n))
    ensures Ends(r, old(server.lastEntry), IndexNeeds(ts, sid, n), server.lastEntry,
                 server.edges.Length, server.table.numBucketsExt, Over(server, KeysOf(ts, sid, n)))
  {
    hide GS.ListsOk, HT.TableOk, HT.Refines, Exact, Scanned, IndexAdded, Loaded, AllGood, KindsApart, KeysFit;
    hide KeysOf, OnTheWay, Ends, SizeOf, IndexNeeds;
    ghost var keys, ext, entries, start := KeysOf(ts, sid, n), server.table.numBucketsExt, server.edges.Length, server.lastEntry;
    ghost var over := Over(server, keys);
    ghost var l0 := server.lists;
    NormalFits(l0, ts, sid, n, engines);
    var x, t, pi, po, used := ScanTable(server);
    IndexesFit(x, t, pi, po, used, l0, ts, sid, n, engines);
    IndexSizes(x, t, pi, po, used, l0, ts, sid, n);
    IndexKeys(x, ts, sid, n);
    r := InsertIndexMap(server, x.types, GS.DIR_IN, keys);
    ghost var e1 := server.lastEntry;
    if r != GS.Done {
      EndsEarly(r, start, SizeOf(x.types), SizeOf(x.predIn) + SizeOf(x.predOut), e1, entries, ext, over);
      return;
    }
    ghost var l1 := server.lists;
    StillFree(l0, l1, x.types, GS.DIR_IN, x.predIn, GS.DIR_IN);
    StillFree(l0, l1, x.types, GS.DIR_IN, x.predOut, GS.DIR_OUT);
    r := InsertIndexMap(server, x.predIn, GS.DIR_IN, keys);
    ghost var e2 := server.lastEntry;
    EndsLater(r, start, SizeOf(x.types), e1, SizeOf(x.predIn), e2, entries, ext, over);
    if r != GS.Done {
      EndsEarly(r, start, SizeOf(x.types) + SizeOf(x.predIn), SizeOf(x.predOut), e2, entries, ext, over);
      return;
    }
    ghost var l2 := server.lists;
    StillFree(l1, l2, x.predIn, GS.DIR_IN, x.predOut, GS.DIR_OUT);
    r := InsertIndexMap(server, x.predOut, GS.DIR_OUT, keys);
    EndsLater(r, start, SizeOf(x.types) + SizeOf(x.predIn), e2, SizeOf(x.predOut), server.lastEntry, entries, ext, over);
    if r != GS.Done { return; }
    IsLoaded(x, l0, l1, l2, server.lists, ts, sid, n, engines);
  }

  /** The collected indexes mean the right vertices, and types and predicates do not meet. */
  ghost predicate Fit(x: Indexes, ts: seq<Triple>, sid: nat, n: nat)
    requires n > 0
  {
    && (forall p :: p in x.types ==> p > 0 && p !in x.predIn && x.types[p] != [])
    && (forall p :: p in x.predIn ==> p > 0 && x.predIn[p] != []) && (forall p :: p in x.predOut ==> p > 0 && x.predOut[p] != [])
    && (forall p: nat :: Distinct(Get(x.types, p)) && Distinct(Get(x.predIn, p)) && Distinct(Get(x.predOut, p)))
    && (forall p: nat, v: nat :: v in Get(x.types, p) <==> v % n == sid && Triple(v, TYPE_ID, p) in ts)
    && (forall p: nat, v: nat :: v in Get(x.predIn, p) <==> v % n == sid && IsPredicate(p) && Touches(ts, p, GS.DIR_OUT, v))
    && (forall p: nat, v: nat :: v in Get(x.predOut, p) <==> v % n == sid && IsPredicate(p) && Touches(ts, p, GS.DIR_IN, v))
  }

  lemma IndexesFit(x: Indexes, t: seq<(nat, nat)>, pi: seq<(nat, nat)>, po: seq<(nat, nat)>, used: seq<HT.Vertex>, lists: Lists,
                   ts: seq<Triple>, sid: nat, n: nat, engines: nat)
    requires n > 0 && engines > 0 && AllGood(ts) && KindsApart(ts) && Exact(lists, ts, sid, n, engines, engines)
    requires Scanned(x, t, pi, po, used, |used|, lists)
    requires forall k :: k in lists <==> Seen(used, |used|, k)
    ensures Fit(x, ts, sid, n)
  {
    hide Exact, Seen, IndexOf, TypeEntries, PredEntries, Distinct;
    forall p: nat
      ensures Distinct(Get(x.types, p)) && Distinct(Get(x.predIn, p)) && Distinct(Get(x.predOut, p))
      ensures forall v: nat :: v in Get(x.types, p) <==> v % n == sid && Triple(v, TYPE_ID, p) in ts
      ensures forall v: nat :: v in Get(x.predIn, p) <==> v % n == sid && IsPredicate(p) && Touches(ts, p, GS.DIR_OUT, v)
      ensures forall v: nat :: v in Get(x.predOut, p) <==> v % n == sid && IsPredicate(p) && Touches(ts, p, GS.DIR_IN, v)
      ensures p in x.types ==> p > 0 && p !in x.predIn && x.types[p] != []
      ensures p in x.predIn ==> p > 0 && x.predIn[p] != []
      ensures p in x.predOut ==> p > 0 && x.predOut[p] != []
    {
      if p in x.types { SomeInList(x.types, t, p); }
      if p in x.predIn { SomeInList(x.predIn, pi, p); }
      if p in x.predOut { SomeInList(x.predOut, po, p); }
      TypeMeans(x.types, t, used, lists, ts, sid, n, engines, p);
      PredMeans(x.predIn, pi, used, lists, GS.DIR_OUT, ts, sid, n, engines, p);
      PredMeans(x.predOut, po, used, lists, GS.DIR_IN, ts, sid, n, engines, p);
      TypesNotPredicates(x, pi, used, lists, ts, sid, n, engines, p);
    }
  }

  lemma TypesNotPredicates(x: Indexes, pi: seq<(nat, nat)>, used: seq<HT.Vertex>, lists: Lists, ts: seq<Triple>, sid: nat, n: nat, engines: nat, p: nat)
    requires n > 0 && engines > 0 && AllGood(ts) && KindsApart(ts) && Exact(lists, ts, sid, n, engines, engines)
    requires IndexOf(x.predIn, pi) && PredEntries(pi, used, |used|, GS.DIR_OUT) && forall k :: k in lists <==> Seen(used, |used|, k)
    requires p in x.types ==> exists v: nat :: Triple(v, TYPE_ID, p) in ts
    ensures p in x.types ==> p > 0 && p !in x.predIn
  {
    hide Exact, Seen, IndexOf, PredEntries, Distinct;
    if p in x.types {
      var v: nat :| Triple(v, TYPE_ID, p) in ts;
      var i :| 0 <= i < |ts| && ts[i] == Triple(v, TYPE_ID, p);
      assert GoodTriple(ts[i]);
      PredicateHasTriple(x.predIn, pi, used, lists, ts, sid, n, engines, p);
    }
  }

  lemma PredicateHasTriple(m: IndexMap, pi: seq<(nat, nat)>, used: seq<HT.Vertex>, lists: Lists, ts: seq<Triple>, sid: nat, n: nat, engines: nat, p: nat)
    requires n > 0 && engines > 0 && AllGood(ts) && Exact(lists, ts, sid, n, engines, engines)
    requires IndexOf(m, pi) && PredEntries(pi, used, |used|, GS.DIR_OUT) && forall k :: k in lists <==> Seen(used, |used|, k)
    ensures p in m ==> exists j :: 0 <= j < |ts| && ts[j].p == p
  {
    hide Exact, Seen, IndexOf, PredEntries, Distinct, AllGood;
    PredMeans(m, pi, used, lists, GS.DIR_OUT, ts, sid, n, engines, p);
    if p in m {
      SomeInList(m, pi, p);
      var u := Get(m, p)[0];
      assert u in Get(m, p);
      var y: nat :| ArcIn(ts, HT.Key(u, p, GS.DIR_OUT), y);
      var j :| 0 <= j < |ts| && ts[j] == Triple(u, p, y);
    }
  }

  lemma SomeInList(m: IndexMap, es: seq<(nat, nat)>, p: nat)
    requires IndexOf(m, es) && p in m
    ensures Get(m, p) != []
  {
  }

  lemma StillFree(l0: Lists, l1: Lists, m: IndexMap, dir: nat, m': IndexMap, dir': nat)
    requires IndexAdded(l0, l1, m, {}, dir) && forall p :: p in m' ==> IndexKey(p, dir') !in l0
    requires dir != dir' || forall p :: p in m ==> p !in m'
    ensures forall p :: p in m' ==> IndexKey(p, dir') !in l1
  {
  }

  /** Putting it together. */
  lemma IsLoaded(x: Indexes, l0: Lists, l1: Lists, l2: Lists, l3: Lists, ts: seq<Triple>, sid: nat, n: nat, engines: nat)
    requires n > 0 && engines > 0 && Exact(l0, ts, sid, n, engines, engines) && Fit(x, ts, sid, n) && forall k :: k in l0 ==> k.vid > 0
    requires IndexAdded(l0, l1, x.types, {}, GS.DIR_IN) && IndexAdded(l1, l2, x.predIn, {}, GS.DIR_IN) && IndexAdded(l2, l3, x.predOut, {}, GS.DIR_OUT)
    requires AllGood(ts)
    ensures Loaded(l3, ts, sid, n) && InListsOnce(l3, ts, n, engines)
  {
    hide Fit, Wanted, ExactList, OnceList, Mine, AllGood;
    forall k: HT.Key | k.vid > 0
      ensures k in l3 <==> k.vid % n == sid && Wanted(ts, k)
      ensures k in l3 ==> ExactList(l3[k], ts, k) && OnceList(l3[k], ts, k, n, engines)
    {
      AllMine(k.vid, sid, n, engines);
    }
    forall k | k in l3
      ensures k.pid > 0 && k.dir <= 1 && l3[k] != []
    {
      if k in l0 { NormalKey(l0, ts, sid, n, engines, k); } else { IndexKeyFits(x, l0, l1, l2, l3, ts, sid, n, k); }
    }
    forall p: nat, dir: nat | p > 0 && dir <= 1
      ensures IndexExact(ListAt(l3, IndexKey(p, dir)), ts, p, dir, sid, n)
    {
      IndexListIs(x, l0, l1, l2, l3, p, dir, ts, sid, n);
      IndexIsExact(x, ts, sid, n, p, dir);
    }
  }

  lemma NormalKey(lists: Lists, ts: seq<Triple>, sid: nat, n: nat, engines: nat, k: HT.Key)
    requires n > 0 && engines > 0 && AllGood(ts) && Exact(lists, ts, sid, n, engines, engines) && k in lists
    ensures k.pid > 0 && k.dir <= 1 && lists[k] != []
  {
    var x: nat :| ArcIn(ts, k, x);
    var t := if k.dir == GS.DIR_OUT then Triple(k.vid, k.pid, x) else Triple(x, k.pid, k.vid);
    assert t in ts && GoodTriple(t);
    assert x in lists[k];
  }

  lemma IndexKeyFits(x: Indexes, l0: Lists, l1: Lists, l2: Lists, l3: Lists, ts: seq<Triple>, sid: nat, n: nat, k: HT.Key)
    requires n > 0 && Fit(x, ts, sid, n) && k in l3 && k !in l0
    requires IndexAdded(l0, l1, x.types, {}, GS.DIR_IN) && IndexAdded(l1, l2, x.predIn, {}, GS.DIR_IN) && IndexAdded(l2, l3, x.predOut, {}, GS.DIR_OUT)
    ensures k.pid > 0 && k.dir <= 1 && l3[k] != []
  {
  }

  /** The list under an index key. */
  lemma IndexListIs(x: Indexes, l0: Lists, l1: Lists, l2: Lists, l3: Lists, p: nat, dir: nat, ts: seq<Triple>, sid: nat, n: nat)
    requires n > 0 && dir <= 1 && forall k :: k in l0 ==> k.vid > 0
    requires IndexAdded(l0, l1, x.types, {}, GS.DIR_IN) && IndexAdded(l1, l2, x.predIn, {}, GS.DIR_IN) && IndexAdded(l2, l3, x.predOut, {}, GS.DIR_OUT)
    requires Fit(x, ts, sid, n)
    ensures ListAt(l3, IndexKey(p, dir)) ==
      if dir == GS.DIR_OUT then Get(x.predOut, p) else if p in x.types then x.types[p] else Get(x.predIn, p)
  {
    var k := IndexKey(p, dir);
    assert k !in l0;
    if dir == GS.DIR_OUT {
      assert k !in l1 && k !in l2;
    } else {
      assert k in l1 <==> p in x.types;
      assert k in l2 <==> p in x.types || p in x.predIn;
      assert k in l3 <==> k in l2;
    }
  }

  lemma IndexIsExact(x: Indexes, ts: seq<Triple>, sid: nat, n: nat, p: nat, dir: nat)
    requires n > 0 && dir <= 1 && Fit(x, ts, sid, n)
    ensures IndexExact(if dir == GS.DIR_OUT then Get(x.predOut, p) else if p in x.types then x.types[p] else Get(x.predIn, p), ts, p, dir, sid, n)
  {
    hide Distinct;
    var list := if dir == GS.DIR_OUT then Get(x.predOut, p) else if p in x.types then x.types[p] else Get(x.predIn, p);
    forall v: nat
      ensures v in list <==> v % n == sid && Qualifies(ts, p, dir, v)
    {
      if dir == GS.DIR_IN {
        assert v in Get(x.types, p) <==> v % n == sid && Triple(v, TYPE_ID, p) in ts;
        assert v in Get(x.predIn, p) <==> v % n == sid && IsPredicate(p) && Touches(ts, p, GS.DIR_OUT, v);
        if p in x.types { assert Get(x.predIn, p) == []; } else { assert Get(x.types, p) == []; }
      }
    }
  }

  /** The entries that a server needs: its triples by subject, its in-edges with the repetitions
      that stay, and its indexes. */
  ghost function Needed(ts: seq<Triple>, sid: nat, n: nat, engines: nat): nat
    requires n > 0 && engines > 0
  {
    ThreadsNeed(ts, sid, n, 0, engines, engines) + IndexNeeds(ts, sid, n)
  }

  /** A loaded server has all its keys. */
  lemma LoadedKeys(lists: Lists, ts: seq<Triple>, sid: nat, n: nat)
    requires n > 0 && AllGood(ts) && Loaded(lists, ts, sid, n)
    ensures KeysOf(ts, sid, n) <= lists.Keys
  {
    hide Loaded;
    forall t | t in ts
      ensures t.s % n == sid ==> HT.Key(t.s, t.p, GS.DIR_OUT) in lists
      ensures t.s % n == sid ==> IndexKey(if t.p == TYPE_ID then t.o else t.p, GS.DIR_IN) in lists
      ensures t.o % n == sid && !IsIndexId(t.o) ==> HT.Key(t.o, t.p, GS.DIR_IN) in lists
      ensures t.o % n == sid && !IsIndexId(t.o) ==> IndexKey(t.p, GS.DIR_OUT) in lists
    {
      assert GoodTriple(t);
      TripleKeys(lists, ts, sid, n, t);
    }
  }

  lemma TripleKeys(lists: Lists, ts: seq<Triple>, sid: nat, n: nat, t: Triple)
    requires n > 0 && Loaded(lists, ts, sid, n) && t in ts && GoodTriple(t)
    ensures t.s % n == sid ==> HT.Key(t.s, t.p, GS.DIR_OUT) in lists
    ensures t.s % n == sid ==> IndexKey(if t.p == TYPE_ID then t.o else t.p, GS.DIR_IN) in lists
    ensures t.o % n == sid && !IsIndexId(t.o) ==> HT.Key(t.o, t.p, GS.DIR_IN) in lists
    ensures t.o % n == sid && !IsIndexId(t.o) ==> IndexKey(t.p, GS.DIR_OUT) in lists
  {
    hide ExactList;
    assert ArcIn(ts, HT.Key(t.s, t.p, GS.DIR_OUT), t.o);
    assert ArcIn(ts, HT.Key(t.o, t.p, GS.DIR_IN), t.s);
    assert Wanted(ts, HT.Key(t.s, t.p, GS.DIR_OUT));
    if t.s % n == sid {
      var p := if t.p == TYPE_ID then t.o else t.p;
      assert IndexExact(ListAt(lists, IndexKey(p, GS.DIR_IN)), ts, p, GS.DIR_IN, sid, n);
      assert Qualifies(ts, p, GS.DIR_IN, t.s);
      assert t.s in ListAt(lists, IndexKey(p, GS.DIR_IN));
    }
    if t.o % n == sid && !IsIndexId(t.o) {
      assert Wanted(ts, HT.Key(t.o, t.p, GS.DIR_IN));
      assert IndexExact(ListAt(lists, IndexKey(t.p, GS.DIR_OUT)), ts, t.p, GS.DIR_OUT, sid, n);
      assert Qualifies(ts, t.p, GS.DIR_OUT, t.o);
      assert t.o in ListAt(lists, IndexKey(t.p, GS.DIR_OUT));
    }
  }

  lemma {:induction false} DemandBound(keys: set<HT.Key>, hash: HT.Key -> nat, buckets: nat)
    requires buckets > 0
    ensures HT.Demand(keys, hash, buckets) <= |keys|
    decreases |keys|
  {
    hide HT.DemandTo;
    if keys == {} {
      HT.NoDemand(hash, buckets, buckets);
    } else {
      var k :| k in keys;
      DemandBound(keys - {k}, hash, buckets);
      HT.DemandMore(keys - {k}, k, hash, buckets, buckets);
      assert keys - {k} + {k} == keys;
    }
  }

  /** Five entries and four overflow buckets for each triple are always enough. */
  lemma EnoughForAll(ts: seq<Triple>, sid: nat, n: nat, engines: nat, hash: HT.Key -> nat, buckets: nat)
    requires n > 0 && engines > 0 && buckets > 0
    ensures Needed(ts, sid, n, engines) <= 5 * |ts| && HT.Demand(KeysOf(ts, sid, n), hash, buckets) <= 4 * |ts|
  {
    hide HT.Demand;
    DemandBound(KeysOf(ts, sid, n), hash, buckets);
    ImageSize(ts, t => t, OutOf(ts, sid, n, 0, engines, engines));
    RunsBound(ts, sid, n, 0, engines, engines);
    ImageSize(ts, (t: Triple) => (t.o, t.s), TypesAt(ts, sid, n));
    ImageSize(ts, (t: Triple) => (t.p, t.s), GoingOut(ts, sid, n));
    ImageSize(ts, (t: Triple) => (t.p, t.o), ComingIn(ts, sid, n));
    KeysBound(ts, sid, n);
  }

  lemma KeysBound(ts: seq<Triple>, sid: nat, n: nat)
    requires n > 0
    ensures |KeysOf(ts, sid, n)| <= 4 * |ts|
  {
    var a, b, c, d := OutKeys(ts, sid, n), InKeys(ts, sid, n), SubjectKeys(ts, sid, n), ObjectKeys(ts, sid, n);
    ImageSize(ts, (t: Triple) => HT.Key(t.s, t.p, GS.DIR_OUT), a);
    ImageSize(ts, (t: Triple) => HT.Key(t.o, t.p, GS.DIR_IN), b);
    ImageSize(ts, (t: Triple) => IndexKey(if t.p == TYPE_ID then t.o else t.p, GS.DIR_IN), c);
    ImageSize(ts, (t: Triple) => IndexKey(t.p, GS.DIR_OUT), d);
    UnionSize(a, b);
    UnionSize(a + b, c);
    UnionSize(a + b + c, d);
  }

  lemma UnionSize<T>(a: set<T>, b: set<T>)
    ensures |a + b| <= |a| + |b|
  {
    assert a + b == a + (b - a);
    SubsetSize(b - a, b);
  }

  lemma {:induction false} ImageSize<T, U>(s: seq<T>, f: T -> U, m: set<U>)
    requires forall y :: y in m ==> exists x :: x in s && f(x) == y
    ensures |m| <= |s|
  {
    if s == [] {
      assert m == {};
    } else {
      var front, last := s[..|s| - 1], s[|s| - 1];
      assert s == front + [last];
      ImageSize(front, f, m - {f(last)});
    }
  }

  lemma {:induction false} RunsBound(ts: seq<Triple>, sid: nat, n: nat, a: nat, b: nat, engines: nat)
    requires n > 0 && engines > 0
    ensures Runs(ts, sid, n, a, b, engines) <= |ts|
  {
    hide Starts;
    if ts != [] { RunsBound(ts[..|ts| - 1], sid, n, a, b, engines); }
  }

  /** A whole server, from the triples to its indexes.  It is done exactly if there are more
      entries than the input needs and as many overflow buckets as its keys take. */
  method LoadServer(ts: seq<Triple>, sid: nat, n: nat, engines: nat, buckets: nat, ext: nat, entries: nat, hash: HT.Key -> nat)
    returns (server: GS.Server, r: GS.Put)
    requires n > 0 && engines > 0 && buckets > 0 && AllGood(ts) && KindsApart(ts)
    ensures fresh(server) && server.Valid() && r != GS.Conflict
    ensures r == GS.Done ==> Loaded(server.lists, ts, sid, n) && InListsOnce(server.lists, ts, n, engines)
    ensures Ends(r, 0, Needed(ts, sid, n, engines), server.lastEntry, entries, ext, HT.Demand(KeysOf(ts, sid, n), hash, buckets))
    ensures r == GS.Done <==>
      && (Needed(ts, sid, n, engines) == 0 || Needed(ts, sid, n, engines) < entries)
      && HT.Demand(KeysOf(ts, sid, n), hash, buckets) <= ext
  {
    hide GS.ListsOk, HT.TableOk, HT.Refines, Exact, Loaded, AllGood, KindsApart, ThreadsNeed, IndexNeeds, KeysOf, HT.Demand;
    server := new GS.Server(buckets, ext, entries, hash);
    ghost var keys := KeysOf(ts, sid, n);
    ghost var over := Over(server, keys);
    r := LoadNormal(server, ts, sid, n, engines);
    ghost var size, between := ThreadsNeed(ts, sid, n, 0, engines, engines), server.lastEntry;
    if r == GS.Done {
      r := InsertIndex(server, ts, sid, n, engines);
      EndsLater(r, 0, size, between, IndexNeeds(ts, sid, n), server.lastEntry, entries, ext, over);
      if r == GS.Done {
        LoadedKeys(server.lists, ts, sid, n);
        assert server.lists.Keys == keys;
      }
    } else {
      EndsEarly(r, 0, size, IndexNeeds(ts, sid, n), between, entries, ext, over);
    }
  }

  // ---- the loaded store holds the graph ----

  function Code(d: Dir): nat { if d == OUT then GS.DIR_OUT else GS.DIR_IN }

  /** What engines can look up when every server is loaded.  Id 0 is no vertex. */
  ghost function StoreOf(all: seq<Lists>): Store
    requires |all| > 0
  {
    Store(|all|,
          (v: Id, p: int, d: Dir) => if v > 0 && p >= 0 then ListAt(all[v % |all|], HT.Key(v, p, Code(d))) else [],
          (i: nat, x: int, pred: int, d: Dir) => if i < |all| && x > 0 then ListAt(all[i], IndexKey(x, Code(d))) else [])
  }

  ghost function GraphOf(ts: seq<Triple>): (g: set<Triple>)
    ensures forall t :: t in g <==> t in ts
  {
    set t | t in ts
  }

  /** The in-lists are free of repetition, too. */
  ghost predicate InListsDistinct(lists: Lists) {
    forall k :: k in lists && k.vid > 0 && k.dir == GS.DIR_IN ==> Distinct(lists[k])
  }

  lemma LoadedAdj(all: seq<Lists>, ts: seq<Triple>, v: Id, p: int, d: Dir)
    requires |all| > 0 && AllGood(ts) && Stored(p, d) && Loaded(all[v % |all|], ts, v % |all|, |all|)
    ensures forall x :: x in StoreOf(all).adj(v, p, d) <==> Edge(GraphOf(ts), v, p, d, x)
    ensures d == OUT || InListsDistinct(all[v % |all|]) ==> Distinct(StoreOf(all).adj(v, p, d))
  {
    var k := HT.Key(v, p, Code(d));
    var lists := all[v % |all|];
    forall x: Id
      ensures Edge(GraphOf(ts), v, p, d, x) <==> ArcIn(ts, k, x)
      ensures Edge(GraphOf(ts), v, p, d, x) ==> v > 0 && k in lists
    {
      if ArcIn(ts, k, x) {
        var t := if d == OUT then Triple(v, p, x) else Triple(x, p, v);
        assert t in ts && GoodTriple(t);
        assert Wanted(ts, k);
      }
    }
  }

  lemma LoadedIndex(all: seq<Lists>, ts: seq<Triple>, i: nat, q: Pattern)
    requires i < |all| && AllGood(ts) && IndexKept(q) && KindOk(GraphOf(ts), q) && Loaded(all[i], ts, i, |all|)
    ensures Distinct(StoreOf(all).index(i, q.subj, q.pred, q.dir))
    ensures forall v: Id :: v in StoreOf(all).index(i, q.subj, q.pred, q.dir) <==> Indexed(GraphOf(ts), q, v) && v % |all| == i
  {
    var list := ListAt(all[i], IndexKey(q.subj, Code(q.dir)));
    assert IndexExact(list, ts, q.subj, Code(q.dir), i, |all|);
    forall v: Id
      ensures v in list <==> Indexed(GraphOf(ts), q, v) && v % |all| == i
    {
      QualifiesIsIndexed(ts, q, v);
    }
  }

  lemma QualifiesIsIndexed(ts: seq<Triple>, q: Pattern, v: Id)
    requires AllGood(ts) && IndexKept(q) && KindOk(GraphOf(ts), q)
    ensures Qualifies(ts, q.subj, Code(q.dir), v) <==> Indexed(GraphOf(ts), q, v)
  {
    var p := q.subj;
    if y: nat :| ArcIn(ts, HT.Key(v, p, GS.DIR_OUT), y) { assert Triple(v, p, y) in GraphOf(ts); }
    if y: nat :| ArcIn(ts, HT.Key(v, p, GS.DIR_IN), y) { assert Triple(y, p, v) in GraphOf(ts); }
    if o: Id :| Triple(v, p, o) in GraphOf(ts) { assert ArcIn(ts, HT.Key(v, p, GS.DIR_OUT), o); }
    if s: Id :| Triple(s, p, v) in GraphOf(ts) { assert ArcIn(ts, HT.Key(v, p, GS.DIR_IN), s); }
    if q.pred == TYPE_ID {
      assert Touches(ts, p, GS.DIR_OUT, v) ==> exists t :: t in GraphOf(ts) && t.p == p;
    }
  }

  /** When all servers have loaded their part, the store holds the graph of the triples, each
      neighbour listed once, exactly if no in-list repeats an element. */
  lemma LoadedHolds(all: seq<Lists>, ts: seq<Triple>)
    requires |all| > 0 && AllGood(ts) && forall i :: 0 <= i < |all| ==> Loaded(all[i], ts, i, |all|)
    ensures Query.Holds(StoreOf(all), GraphOf(ts)) <==> forall i :: 0 <= i < |all| ==> InListsDistinct(all[i])
  {
    hide Loaded, AllGood, InListsDistinct;
    var st, g := StoreOf(all), GraphOf(ts);
    if forall i :: 0 <= i < |all| ==> InListsDistinct(all[i]) {
      forall v: Id, p: int, d: Dir | Stored(p, d)
        ensures Distinct(st.adj(v, p, d)) && forall x :: x in st.adj(v, p, d) <==> Edge(g, v, p, d, x)
      {
        LoadedAdj(all, ts, v, p, d);
      }
      forall i: nat, q: Pattern | i < st.servers && IndexKept(q) && KindOk(g, q)
        ensures Distinct(st.index(i, q.subj, q.pred, q.dir))
        ensures forall v: Id :: v in st.index(i, q.subj, q.pred, q.dir) <==> Indexed(g, q, v) && v % st.servers == i
      {
        LoadedIndex(all, ts, i, q);
      }
    }
    if Query.Holds(st, g) {
      forall i | 0 <= i < |all|
        ensures InListsDistinct(all[i])
      {
        HoldsDistinct(all, ts, i);
      }
    }
  }

  lemma HoldsDistinct(all: seq<Lists>, ts: seq<Triple>, i: nat)
    requires i < |all| && AllGood(ts) && Loaded(all[i], ts, i, |all|) && Query.Holds(StoreOf(all), GraphOf(ts))
    ensures InListsDistinct(all[i])
  {
    var lists := all[i];
    forall k | k in lists && k.vid > 0 && k.dir == GS.DIR_IN
      ensures Distinct(lists[k])
    {
      var x: nat :| ArcIn(ts, k, x);
      assert GoodTriple(Triple(x, k.pid, k.vid));
      assert Stored(k.pid, IN) && StoreOf(all).adj(k.vid, k.pid, IN) == lists[k];
    }
  }

  /** Every triple but type triples stays once. */
  ghost predicate AllStayOnce(ts: seq<Triple>, n: nat, engines: nat)
    requires n > 0 && engines > 0
  {
    forall i :: 0 <= i < |ts| && ts[i].p != TYPE_ID ==> StaysOnce(ts, ts[i], n, engines)
  }

  /** In terms of the input: the loaded store holds the graph exactly if between two copies of a
      triple the input has nothing else for the same thread. */
  lemma BulkHolds(all: seq<Lists>, ts: seq<Triple>, engines: nat)
    requires |all| > 0 && engines > 0 && AllGood(ts)
    requires forall i :: 0 <= i < |all| ==> Loaded(all[i], ts, i, |all|) && InListsOnce(all[i], ts, |all|, engines)
    ensures Query.Holds(StoreOf(all), GraphOf(ts)) <==> AllStayOnce(ts, |all|, engines)
  {
    hide Loaded, AllGood, InListsDistinct, InListsOnce, StaysOnce, Query.Holds;
    LoadedHolds(all, ts);
    if AllStayOnce(ts, |all|, engines) {
      forall i | 0 <= i < |all|
        ensures InListsDistinct(all[i])
      {
        OnceIsDistinct(all[i], ts, i, |all|, engines);
      }
    }
    if forall i :: 0 <= i < |all| ==> InListsDistinct(all[i]) {
      forall j | 0 <= j < |ts| && ts[j].p != TYPE_ID
        ensures StaysOnce(ts, ts[j], |all|, engines)
      {
        var i := ts[j].o % |all|;
        assert InListsDistinct(all[i]) && Loaded(all[i], ts, i, |all|) && InListsOnce(all[i], ts, |all|, engines);
        DistinctIsOnce(all[i], ts, i, |all|, engines, j);
      }
    }
  }

  lemma OnceIsDistinct(lists: Lists, ts: seq<Triple>, sid: nat, n: nat, engines: nat)
    requires n > 0 && engines > 0 && AllGood(ts) && Loaded(lists, ts, sid, n) && InListsOnce(lists, ts, n, engines)
    requires AllStayOnce(ts, n, engines)
    ensures InListsDistinct(lists)
  {
    hide StaysOnce;
    forall k | k in lists && k.vid > 0 && k.dir == GS.DIR_IN
      ensures Distinct(lists[k])
    {
      forall x: nat | ArcIn(ts, k, x)
        ensures StaysOnce(ts, Triple(x, k.pid, k.vid), n, engines)
      {
        var t := Triple(x, k.pid, k.vid);
        var i :| 0 <= i < |ts| && ts[i] == t;
        assert GoodTriple(ts[i]);
      }
      assert OnceList(lists[k], ts, k, n, engines);
    }
  }

  lemma DistinctIsOnce(lists: Lists, ts: seq<Triple>, sid: nat, n: nat, engines: nat, j: nat)
    requires n > 0 && engines > 0 && AllGood(ts) && Loaded(lists, ts, sid, n) && InListsOnce(lists, ts, n, engines)
    requires InListsDistinct(lists) && j < |ts| && ts[j].p != TYPE_ID && ts[j].o % n == sid
    ensures StaysOnce(ts, ts[j], n, engines)
  {
    hide StaysOnce;
    var t := ts[j];
    var k := HT.Key(t.o, t.p, GS.DIR_IN);
    assert GoodTriple(t) && t in ts && ArcIn(ts, k, t.s);
    assert Wanted(ts, k) && k in lists;
    assert OnceList(lists[k], ts, k, n, engines);
    assert Triple(t.s, k.pid, k.vid) == t;
  }

  /** If no triple has the reserved id, it has no lists. */
  lemma BlankHasNoLists(all: seq<Lists>, ts: seq<Triple>, p: int, d: Dir)
    requires |all| > 0 && AllGood(ts) && (forall i :: 0 <= i < |all| ==> Loaded(all[i], ts, i, |all|)) && Stored(p, d)
    requires forall i :: 0 <= i < |ts| ==> ts[i].s != BLANK_ID && ts[i].o != BLANK_ID
    ensures StoreOf(all).adj(BLANK_ID, p, d) == []
  {
    LoadedAdj(all, ts, BLANK_ID, p, d);
  }
}
