/**
 * Inserting triples into a running store (core/gstore.hpp, insert_triple_out and
 * insert_triple_in on top of insert_vertex_edge).
 *
 * Here a list is a value; how a list grows inside its block while others read it is the subject
 * of DynStore.  The module proves that any sequence of inserts, with repetitions, leaves what
 * bulk loading the same triples leaves, up to the order of the lists, and that the indexes
 * always agree with the normal keys.
 */
module DynamicLoad {
  import opened Query
  import opened Aggregate
  import opened BulkLoad
  import HT = HashTable
  import GS = GStore

  /** Element x belongs into list k, when the out-edges of `outs` and the in-edges of `ins` have
      been inserted on server sid. */
  ghost predicate Belongs(outs: seq<Triple>, ins: seq<Triple>, sid: nat, n: nat, k: HT.Key, x: nat)
    requires n > 0
  {
    if k.vid > 0 then
      k.vid % n == sid && if k.dir == GS.DIR_OUT then ArcIn(outs, k, x) else k.pid != TYPE_ID && ArcIn(ins, k, x)
    else
      x % n == sid && if k.dir == GS.DIR_OUT then IsPredicate(k.pid) && Touches(ins, k.pid, GS.DIR_IN, x)
                      else k.dir == GS.DIR_IN
                           && (Triple(x, TYPE_ID, k.pid) in outs || (IsPredicate(k.pid) && Touches(outs, k.pid, GS.DIR_OUT, x)))
  }

  /** Lists that never hold an element twice: all of them if inserts check for repetition, and
      type and index lists in any case. */
  predicate NoRepeats(k: HT.Key, check: bool) { check || k.vid == 0 || k.pid == TYPE_ID }

  ghost predicate ListOk(lists: Lists, outs: seq<Triple>, ins: seq<Triple>, sid: nat, n: nat, check: bool, k: HT.Key)
    requires n > 0
  {
    && (k in lists ==> lists[k] != [])
    && (forall x: nat :: x in ListAt(lists, k) <==> Belongs(outs, ins, sid, n, k, x))
    && (NoRepeats(k, check) ==> Distinct(ListAt(lists, k)))
  }

  ghost predicate DynOk(lists: Lists, outs: seq<Triple>, ins: seq<Triple>, sid: nat, n: nat, check: bool)
    requires n > 0
  {
    && (forall k :: k in lists ==> k.pid > 0)
    && forall k: HT.Key :: k.pid > 0 ==> ListOk(lists, outs, ins, sid, n, check, k)
  }

  // ---- what a triple adds ----

  function OutKey(t: Triple): HT.Key { HT.Key(t.s, t.p, GS.DIR_OUT) }

  function InKey(t: Triple): HT.Key { HT.Key(t.o, t.p, GS.DIR_IN) }

  function OutIndex(t: Triple): HT.Key { IndexKey(if t.p == TYPE_ID then t.o else t.p, GS.DIR_IN) }

  function InIndex(t: Triple): HT.Key { IndexKey(t.p, GS.DIR_OUT) }

  lemma {:induction false} ArcInNext(ts: seq<Triple>, t: Triple, k: HT.Key, x: nat)
    ensures ArcIn(ts + [t], k, x) <==> ArcIn(ts, k, x) || (k == OutKey(t) && x == t.o) || (k == InKey(t) && x == t.s)
  {
  }

  lemma TouchesNext(ts: seq<Triple>, t: Triple, p: nat, dir: nat, v: nat)
    requires dir <= 1
    ensures Touches(ts + [t], p, dir, v) <==>
      Touches(ts, p, dir, v) || (p == t.p && v == if dir == GS.DIR_OUT then t.s else t.o)
  {
    var k := HT.Key(v, p, dir);
    if x: nat :| ArcIn(ts + [t], k, x) { ArcInNext(ts, t, k, x); }
    if x: nat :| ArcIn(ts, k, x) { ArcInNext(ts, t, k, x); }
    ArcInNext(ts, t, k, t.o);
    ArcInNext(ts, t, k, t.s);
  }

  lemma BelongsOut(outs: seq<Triple>, ins: seq<Triple>, sid: nat, n: nat, t: Triple, k: HT.Key, x: nat)
    requires n > 0 && GoodTriple(t) && k.pid > 0
    ensures Belongs(outs + [t], ins, sid, n, k, x) <==>
      || Belongs(outs, ins, sid, n, k, x)
      || (t.s % n == sid && ((k == OutKey(t) && x == t.o) || (k == OutIndex(t) && x == t.s)))
  {
    hide ArcIn, Touches;
    ArcInNext(outs, t, k, x);
    TouchesNext(outs, t, k.pid, GS.DIR_OUT, x);
    assert Triple(x, TYPE_ID, k.pid) in outs + [t] <==> Triple(x, TYPE_ID, k.pid) in outs || Triple(x, TYPE_ID, k.pid) == t;
  }

  lemma BelongsIn(outs: seq<Triple>, ins: seq<Triple>, sid: nat, n: nat, t: Triple, k: HT.Key, x: nat)
    requires n > 0 && GoodTriple(t) && k.pid > 0
    ensures Belongs(outs, ins + [t], sid, n, k, x) <==>
      || Belongs(outs, ins, sid, n, k, x)
      || (t.o % n == sid && t.p != TYPE_ID && ((k == InKey(t) && x == t.s) || (k == InIndex(t) && x == t.o)))
  {
    hide ArcIn, Touches;
    ArcInNext(ins, t, k, x);
    TouchesNext(ins, t, k.pid, GS.DIR_IN, x);
  }

  // ---- the lists, element by element ----

  /** What inserting a triple's out-edge, or its in-edge, brings to list k. */
  function OutBrings(t: Triple, k: HT.Key): seq<nat> {
    if k == OutKey(t) then [t.o] else if k == OutIndex(t) then [t.s] else []
  }

  function InBrings(t: Triple, k: HT.Key): seq<nat> {
    if t.p == TYPE_ID then [] else if k == InKey(t) then [t.s] else if k == InIndex(t) then [t.o] else []
  }

  /** All that the triples bring to list k of server sid, in order. */
  function Arrivals(ts: seq<Triple>, k: HT.Key, sid: nat, n: nat): seq<nat>
    requires n > 0
  {
    if ts == [] then [] else
      var t := ts[|ts| - 1];
      Arrivals(ts[..|ts| - 1], k, sid, n) + (if t.s % n == sid then OutBrings(t, k) else []) + if t.o % n == sid then InBrings(t, k) else []
  }

  /** A list after more elements; one that holds nothing twice passes over what it has. */
  function Take(list: seq<nat>, xs: seq<nat>, once: bool): seq<nat> {
    if xs == [] then list else
      var front := Take(list, xs[..|xs| - 1], once);
      if once && xs[|xs| - 1] in front then front else front + [xs[|xs| - 1]]
  }

  lemma {:induction false} TakeConcat(list: seq<nat>, a: seq<nat>, b: seq<nat>, once: bool)
    ensures Take(Take(list, a, once), b, once) == Take(list, a + b, once)
  {
    if b == [] {
      assert a + b == a;
    } else {
      TakeConcat(list, a, b[..|b| - 1], once);
      assert (a + b)[..|a + b| - 1] == a + b[..|b| - 1];
    }
  }

  /** Without checks all elements are appended; with checks those that are new, once each. */
  lemma {:induction false} TakeMeans(list: seq<nat>, xs: seq<nat>, once: bool)
    ensures !once ==> Take(list, xs, once) == list + xs
    ensures list <= Take(list, xs, once)
    ensures forall x :: x in Take(list, xs, once) <==> x in list || x in xs
    ensures once && Distinct(list) ==> Distinct(Take(list, xs, once))
  {
    if xs != [] {
      var front, x := xs[..|xs| - 1], xs[|xs| - 1];
      assert xs == front + [x];
      TakeMeans(list, front, once);
      if once && Distinct(list) && x !in Take(list, front, once) { DistinctConcat(Take(list, front, once), [x]); }
    }
  }

  /** Every list after inserting a triple's out-edge, or in-edge, is the one before with what it brings. */
  ghost predicate TookOut(lists: Lists, lists': Lists, t: Triple, check: bool) {
    forall k: HT.Key :: ListAt(lists', k) == Take(ListAt(lists, k), OutBrings(t, k), NoRepeats(k, check))
  }

  ghost predicate TookIn(lists: Lists, lists': Lists, t: Triple, check: bool) {
    forall k: HT.Key :: ListAt(lists', k) == Take(ListAt(lists, k), InBrings(t, k), NoRepeats(k, check))
  }

  /** Every list after inserting triples is the one before with all that arrived. */
  ghost predicate TookAll(lists: Lists, lists': Lists, ts: seq<Triple>, sid: nat, n: nat, check: bool)
    requires n > 0
  {
    forall k: HT.Key :: ListAt(lists', k) == Take(ListAt(lists, k), Arrivals(ts, k, sid, n), NoRepeats(k, check))
  }

  lemma TakeOne(list: seq<nat>, x: nat, once: bool)
    ensures Take(list, [x], once) == if once && x in list then list else list + [x]
    ensures Take(list, [], once) == list
  {
    assert Take(list, [x][..0], once) == list;
  }

  lemma TookNext(lists: Lists, a: Lists, b: Lists, c: Lists, ts: seq<Triple>, t: Triple, sid: nat, n: nat, check: bool)
    requires n > 0 && TookAll(lists, a, ts, sid, n, check)
    requires if t.s % n == sid then TookOut(a, b, t, check) else b == a
    requires if t.o % n == sid then TookIn(b, c, t, check) else c == b
    ensures TookAll(lists, c, ts + [t], sid, n, check)
  {
    hide OutBrings, InBrings, Take;
    assert (ts + [t])[..|ts|] == ts;
    forall k: HT.Key
      ensures ListAt(c, k) == Take(ListAt(lists, k), Arrivals(ts + [t], k, sid, n), NoRepeats(k, check))
    {
      var once, was, came := NoRepeats(k, check), ListAt(lists, k), Arrivals(ts, k, sid, n);
      var o := if t.s % n == sid then OutBrings(t, k) else [];
      var i := if t.o % n == sid then InBrings(t, k) else [];
      TakeOne(ListAt(a, k), 0, once);
      TakeOne(ListAt(b, k), 0, once);
      TakeConcat(was, came, o, once);
      TakeConcat(was, came + o, i, once);
    }
  }

  // ---- appending to a list ----

  function Append(lists: Lists, k: HT.Key, x: nat): Lists { lists[k := ListAt(lists, k) + [x]] }

  lemma AppendAt(lists: Lists, k: HT.Key, x: nat, j: HT.Key)
    ensures ListAt(Append(lists, k, x), j) == ListAt(lists, j) + if j == k then [x] else []
  {
  }

  /** The list of key j after an append to k: in order for the new belongings if x is the only
      element that may be new to it. */
  lemma AppendOk(lists: Lists, lists': Lists, outs: seq<Triple>, ins: seq<Triple>, outs': seq<Triple>, ins': seq<Triple>,
                 sid: nat, n: nat, check: bool, j: HT.Key, x: nat)
    requires n > 0 && ListOk(lists, outs, ins, sid, n, check, j)
    requires forall y: nat :: Belongs(outs', ins', sid, n, j, y) <==> Belongs(outs, ins, sid, n, j, y) || y == x
    requires ListAt(lists', j) == ListAt(lists, j) + [x] && (j in lists' ==> lists'[j] != [])
    requires NoRepeats(j, check) ==> x !in ListAt(lists, j)
    ensures ListOk(lists', outs', ins', sid, n, check, j)
  {
    hide Belongs;
    if NoRepeats(j, check) { DistinctConcat(ListAt(lists, j), [x]); }
  }

  lemma SameOk(lists: Lists, lists': Lists, outs: seq<Triple>, ins: seq<Triple>, outs': seq<Triple>, ins': seq<Triple>,
               sid: nat, n: nat, check: bool, j: HT.Key)
    requires n > 0 && ListOk(lists, outs, ins, sid, n, check, j)
    requires forall y: nat :: Belongs(outs', ins', sid, n, j, y) <==> Belongs(outs, ins, sid, n, j, y)
    requires ListAt(lists', j) == ListAt(lists, j) && (j in lists' ==> lists'[j] != [])
    ensures ListOk(lists', outs', ins', sid, n, check, j)
  {
    hide Belongs;
  }

  /** What is in a normal list is in the index list that goes with it. */
  lemma IndexFollows(lists: Lists, outs: seq<Triple>, ins: seq<Triple>, sid: nat, n: nat, t: Triple)
    requires n > 0 && GoodTriple(t)
    ensures t.s % n == sid && t.p != TYPE_ID && (exists x: nat :: Belongs(outs, ins, sid, n, OutKey(t), x))
      ==> Belongs(outs, ins, sid, n, OutIndex(t), t.s)
    ensures t.p == TYPE_ID && Belongs(outs, ins, sid, n, OutKey(t), t.o) ==> Belongs(outs, ins, sid, n, OutIndex(t), t.s)
    ensures t.o % n == sid && t.p != TYPE_ID && (exists x: nat :: Belongs(outs, ins, sid, n, InKey(t), x))
      ==> Belongs(outs, ins, sid, n, InIndex(t), t.o)
  {
  }

  /** And only that. */
  lemma IndexOnly(outs: seq<Triple>, ins: seq<Triple>, sid: nat, n: nat, t: Triple)
    requires n > 0 && GoodTriple(t) && KindsApart(outs + [t])
    ensures t.p != TYPE_ID && Belongs(outs, ins, sid, n, OutIndex(t), t.s) ==> exists x: nat :: Belongs(outs, ins, sid, n, OutKey(t), x)
    ensures t.p == TYPE_ID && Belongs(outs, ins, sid, n, OutIndex(t), t.s) ==> Belongs(outs, ins, sid, n, OutKey(t), t.o)
  {
    var all := outs + [t];
    assert all[|outs|] == t;
    if t.p != TYPE_ID && Belongs(outs, ins, sid, n, OutIndex(t), t.s) {
      NotAType(outs, t, t.s);
      var x: nat :| ArcIn(outs, HT.Key(t.s, t.p, GS.DIR_OUT), x);
      assert Belongs(outs, ins, sid, n, OutKey(t), x);
    }
    if t.p == TYPE_ID { NotAPredicate(outs, t, t.s); }
  }

  lemma NotAType(outs: seq<Triple>, t: Triple, v: nat)
    requires KindsApart(outs + [t])
    ensures Triple(v, TYPE_ID, t.p) !in outs
  {
    var all := outs + [t];
    assert all[|outs|] == t;
    forall i | 0 <= i < |outs|
      ensures outs[i] != Triple(v, TYPE_ID, t.p)
    {
      assert all[i] == outs[i];
    }
  }

  lemma NotAPredicate(outs: seq<Triple>, t: Triple, v: nat)
    requires KindsApart(outs + [t]) && t.p == TYPE_ID
    ensures !Touches(outs, t.o, GS.DIR_OUT, v)
  {
    var all := outs + [t];
    assert all[|outs|] == t;
    forall x: nat
      ensures !ArcIn(outs, HT.Key(v, t.o, GS.DIR_OUT), x)
    {
      forall i | 0 <= i < |outs|
        ensures outs[i] != Triple(v, t.o, x)
      {
        assert all[i] == outs[i];
      }
    }
  }

  lemma InIndexOnly(outs: seq<Triple>, ins: seq<Triple>, sid: nat, n: nat, t: Triple)
    requires n > 0 && GoodTriple(t) && t.p != TYPE_ID
    ensures Belongs(outs, ins, sid, n, InIndex(t), t.o) ==> exists x: nat :: Belongs(outs, ins, sid, n, InKey(t), x)
  {
    if Belongs(outs, ins, sid, n, InIndex(t), t.o) {
      var x: nat :| ArcIn(ins, HT.Key(t.o, t.p, GS.DIR_IN), x);
      assert Belongs(outs, ins, sid, n, InKey(t), x);
    }
  }

  /** The lists after a new type triple. */
  function AfterType(lists: Lists, t: Triple): Lists {
    if t.o in ListAt(lists, OutKey(t)) then lists else Append(Append(lists, OutKey(t), t.o), OutIndex(t), t.s)
  }

  /** The lists after an edge whose element x goes to key k, and v to the index if k is new. */
  function AfterEdge(lists: Lists, k: HT.Key, x: nat, index: HT.Key, v: nat, check: bool): Lists {
    var a := if check && x in ListAt(lists, k) then lists else Append(lists, k, x);
    if ListAt(lists, k) == [] then Append(a, index, v) else a
  }

  lemma OutTypeOk(lists: Lists, outs: seq<Triple>, ins: seq<Triple>, sid: nat, n: nat, check: bool, t: Triple)
    requires n > 0 && t.s % n == sid && GoodTriple(t) && t.p == TYPE_ID && KindsApart(outs + [t]) && DynOk(lists, outs, ins, sid, n, check)
    ensures DynOk(AfterType(lists, t), outs + [t], ins, sid, n, check)
  {
    hide Belongs, ListOk, KindsApart;
    var lists', outs' := AfterType(lists, t), outs + [t];
    var k, index := OutKey(t), OutIndex(t);
    IndexFollows(lists, outs, ins, sid, n, t);
    IndexOnly(outs, ins, sid, n, t);
    ListMeans(lists, outs, ins, sid, n, check, k, t.o);
    ListMeans(lists, outs, ins, sid, n, check, index, t.s);
    forall j: HT.Key | j.pid > 0
      ensures ListOk(lists', outs', ins, sid, n, check, j)
    {
      forall y: nat
        ensures Belongs(outs', ins, sid, n, j, y) <==>
          Belongs(outs, ins, sid, n, j, y) || (j == k && y == t.o) || (j == index && y == t.s)
      {
        BelongsOut(outs, ins, sid, n, t, j, y);
      }
      NoEmpty(lists, outs, ins, sid, n, check, j);
      if t.o in ListAt(lists, k) || (j != k && j != index) {
        SameOk(lists, lists', outs, ins, outs', ins, sid, n, check, j);
      } else {
        AppendOk(lists, lists', outs, ins, outs', ins, sid, n, check, j, if j == k then t.o else t.s);
      }
    }
  }

  lemma TypeTook(lists: Lists, outs: seq<Triple>, ins: seq<Triple>, sid: nat, n: nat, check: bool, t: Triple)
    requires n > 0 && t.s % n == sid && GoodTriple(t) && t.p == TYPE_ID && KindsApart(outs + [t]) && DynOk(lists, outs, ins, sid, n, check)
    ensures TookOut(lists, AfterType(lists, t), t, check)
  {
    hide Belongs, ListOk, KindsApart, Take, DynOk;
    IndexFollows(lists, outs, ins, sid, n, t);
    IndexOnly(outs, ins, sid, n, t);
    ListMeans(lists, outs, ins, sid, n, check, OutKey(t), t.o);
    ListMeans(lists, outs, ins, sid, n, check, OutIndex(t), t.s);
    forall k: HT.Key
      ensures ListAt(AfterType(lists, t), k) == Take(ListAt(lists, k), OutBrings(t, k), NoRepeats(k, check))
    {
      TakeOne(ListAt(lists, k), if k == OutKey(t) then t.o else t.s, NoRepeats(k, check));
    }
  }

  lemma OutTook(lists: Lists, outs: seq<Triple>, ins: seq<Triple>, sid: nat, n: nat, check: bool, t: Triple)
    requires n > 0 && t.s % n == sid && GoodTriple(t) && t.p != TYPE_ID && KindsApart(outs + [t]) && DynOk(lists, outs, ins, sid, n, check)
    ensures TookOut(lists, AfterEdge(lists, OutKey(t), t.o, OutIndex(t), t.s, check), t, check)
  {
    hide Belongs, ListOk, KindsApart, Take, DynOk;
    IndexFollows(lists, outs, ins, sid, n, t);
    IndexOnly(outs, ins, sid, n, t);
    ListMeans(lists, outs, ins, sid, n, check, OutKey(t), t.o);
    ListMeans(lists, outs, ins, sid, n, check, OutIndex(t), t.s);
    var lists' := AfterEdge(lists, OutKey(t), t.o, OutIndex(t), t.s, check);
    forall k: HT.Key
      ensures ListAt(lists', k) == Take(ListAt(lists, k), OutBrings(t, k), NoRepeats(k, check))
    {
      TakeOne(ListAt(lists, k), if k == OutKey(t) then t.o else t.s, NoRepeats(k, check));
    }
  }

  lemma InTook(lists: Lists, outs: seq<Triple>, ins: seq<Triple>, sid: nat, n: nat, check: bool, t: Triple)
    requires n > 0 && t.o % n == sid && GoodTriple(t) && t.p != TYPE_ID && DynOk(lists, outs, ins, sid, n, check)
    ensures TookIn(lists, AfterEdge(lists, InKey(t), t.s, InIndex(t), t.o, check), t, check)
  {
    hide Belongs, ListOk, Take, DynOk;
    IndexFollows(lists, outs, ins, sid, n, t);
    InIndexOnly(outs, ins, sid, n, t);
    ListMeans(lists, outs, ins, sid, n, check, InKey(t), t.s);
    ListMeans(lists, outs, ins, sid, n, check, InIndex(t), t.o);
    var lists' := AfterEdge(lists, InKey(t), t.s, InIndex(t), t.o, check);
    forall k: HT.Key
      ensures ListAt(lists', k) == Take(ListAt(lists, k), InBrings(t, k), NoRepeats(k, check))
    {
      TakeOne(ListAt(lists, k), if k == InKey(t) then t.s else t.o, NoRepeats(k, check));
    }
  }

  lemma ListMeans(lists: Lists, outs: seq<Triple>, ins: seq<Triple>, sid: nat, n: nat, check: bool, k: HT.Key, x: nat)
    requires n > 0 && DynOk(lists, outs, ins, sid, n, check) && k.pid > 0
    ensures x in ListAt(lists, k) <==> Belongs(outs, ins, sid, n, k, x)
    ensures ListAt(lists, k) == [] <==> !exists y: nat :: Belongs(outs, ins, sid, n, k, y)
  {
    assert ListOk(lists, outs, ins, sid, n, check, k);
    hide Belongs;
    if ListAt(lists, k) != [] { assert ListAt(lists, k)[0] in ListAt(lists, k); }
  }

  lemma NoEmpty(lists: Lists, outs: seq<Triple>, ins: seq<Triple>, sid: nat, n: nat, check: bool, k: HT.Key)
    requires n > 0 && DynOk(lists, outs, ins, sid, n, check) && k.pid > 0
    ensures ListOk(lists, outs, ins, sid, n, check, k) && (k in lists ==> lists[k] != [])
  {
  }

  /** An edge with its index entry, in either direction. */
  lemma EdgeOk(lists: Lists, outs: seq<Triple>, ins: seq<Triple>, outs': seq<Triple>, ins': seq<Triple>, sid: nat, n: nat, check: bool,
               k: HT.Key, x: nat, index: HT.Key, v: nat)
    requires n > 0 && DynOk(lists, outs, ins, sid, n, check) && k.pid > 0 && index.pid > 0 && k.vid > 0 && k.pid != TYPE_ID && index.vid == 0
    requires forall j: HT.Key, y: nat :: j.pid > 0 ==>
      (Belongs(outs', ins', sid, n, j, y) <==> Belongs(outs, ins, sid, n, j, y) || (j == k && y == x) || (j == index && y == v))
    requires Belongs(outs, ins, sid, n, index, v) <==> exists y: nat :: Belongs(outs, ins, sid, n, k, y)
    ensures DynOk(AfterEdge(lists, k, x, index, v, check), outs', ins', sid, n, check)
  {
    hide Belongs, ListOk;
    var lists' := AfterEdge(lists, k, x, index, v, check);
    ListMeans(lists, outs, ins, sid, n, check, k, x);
    ListMeans(lists, outs, ins, sid, n, check, index, v);
    forall j: HT.Key | j.pid > 0
      ensures ListOk(lists', outs', ins', sid, n, check, j)
    {
      NoEmpty(lists, outs, ins, sid, n, check, j);
      if j == k {
        if check && x in ListAt(lists, k) {
          SameOk(lists, lists', outs, ins, outs', ins', sid, n, check, j);
        } else {
          AppendOk(lists, lists', outs, ins, outs', ins', sid, n, check, j, x);
        }
      } else if j == index && ListAt(lists, k) == [] {
        AppendOk(lists, lists', outs, ins, outs', ins', sid, n, check, j, v);
      } else {
        SameOk(lists, lists', outs, ins, outs', ins', sid, n, check, j);
      }
    }
  }

  lemma OutNormalOk(lists: Lists, outs: seq<Triple>, ins: seq<Triple>, sid: nat, n: nat, check: bool, t: Triple)
    requires n > 0 && t.s % n == sid && GoodTriple(t) && t.p != TYPE_ID && KindsApart(outs + [t]) && DynOk(lists, outs, ins, sid, n, check)
    ensures DynOk(AfterEdge(lists, OutKey(t), t.o, OutIndex(t), t.s, check), outs + [t], ins, sid, n, check)
  {
    hide Belongs, DynOk, KindsApart;
    IndexFollows(lists, outs, ins, sid, n, t);
    IndexOnly(outs, ins, sid, n, t);
    forall j: HT.Key, y: nat | j.pid > 0
      ensures Belongs(outs + [t], ins, sid, n, j, y) <==>
        Belongs(outs, ins, sid, n, j, y) || (j == OutKey(t) && y == t.o) || (j == OutIndex(t) && y == t.s)
    {
      BelongsOut(outs, ins, sid, n, t, j, y);
    }
    EdgeOk(lists, outs, ins, outs + [t], ins, sid, n, check, OutKey(t), t.o, OutIndex(t), t.s);
  }

  lemma InNormalOk(lists: Lists, outs: seq<Triple>, ins: seq<Triple>, sid: nat, n: nat, check: bool, t: Triple)
    requires n > 0 && t.o % n == sid && GoodTriple(t) && t.p != TYPE_ID && DynOk(lists, outs, ins, sid, n, check)
    ensures DynOk(AfterEdge(lists, InKey(t), t.s, InIndex(t), t.o, check), outs, ins + [t], sid, n, check)
  {
    hide Belongs, DynOk;
    IndexFollows(lists, outs, ins, sid, n, t);
    InIndexOnly(outs, ins, sid, n, t);
    forall j: HT.Key, y: nat | j.pid > 0
      ensures Belongs(outs, ins + [t], sid, n, j, y) <==>
        Belongs(outs, ins, sid, n, j, y) || (j == InKey(t) && y == t.s) || (j == InIndex(t) && y == t.o)
    {
      BelongsIn(outs, ins, sid, n, t, j, y);
    }
    EdgeOk(lists, outs, ins, outs, ins + [t], sid, n, check, InKey(t), t.s, InIndex(t), t.o);
  }

  /** A triple that adds nothing here: not owned, or a type triple seen from the type. */
  lemma NothingNew(lists: Lists, outs: seq<Triple>, ins: seq<Triple>, outs': seq<Triple>, ins': seq<Triple>, sid: nat, n: nat, check: bool)
    requires n > 0 && DynOk(lists, outs, ins, sid, n, check)
    requires forall j: HT.Key, y: nat :: j.pid > 0 ==> (Belongs(outs', ins', sid, n, j, y) <==> Belongs(outs, ins, sid, n, j, y))
    ensures DynOk(lists, outs', ins', sid, n, check)
  {
    hide Belongs;
    forall j: HT.Key | j.pid > 0
      ensures ListOk(lists, outs', ins', sid, n, check, j)
    {
      SameOk(lists, lists, outs, ins, outs', ins', sid, n, check, j);
    }
  }

  lemma InSkipOk(lists: Lists, outs: seq<Triple>, ins: seq<Triple>, sid: nat, n: nat, check: bool, t: Triple)
    requires n > 0 && GoodTriple(t) && (t.p == TYPE_ID || t.o % n != sid) && DynOk(lists, outs, ins, sid, n, check)
    ensures DynOk(lists, outs, ins + [t], sid, n, check)
  {
    hide Belongs, DynOk;
    forall j: HT.Key, y: nat | j.pid > 0
      ensures Belongs(outs, ins + [t], sid, n, j, y) <==> Belongs(outs, ins, sid, n, j, y)
    {
      BelongsIn(outs, ins, sid, n, t, j, y);
    }
    NothingNew(lists, outs, ins, outs, ins + [t], sid, n, check);
  }

  lemma OutSkipOk(lists: Lists, outs: seq<Triple>, ins: seq<Triple>, sid: nat, n: nat, check: bool, t: Triple)
    requires n > 0 && GoodTriple(t) && t.s % n != sid && DynOk(lists, outs, ins, sid, n, check)
    ensures DynOk(lists, outs + [t], ins, sid, n, check)
  {
    hide Belongs, DynOk;
    forall j: HT.Key, y: nat | j.pid > 0
      ensures Belongs(outs + [t], ins, sid, n, j, y) <==> Belongs(outs, ins, sid, n, j, y)
    {
      BelongsOut(outs, ins, sid, n, t, j, y);
    }
    NothingNew(lists, outs, ins, outs + [t], ins, sid, n, check);
  }

  class DynServer {
    var lists: Lists

    constructor ()
      ensures lists == map[]
    {
      lists := map[];
    }

    method IsDup(key: HT.Key, value: nat) returns (dup: bool)
      ensures dup <==> value in ListAt(lists, key)
    {
      var list := ListAt(lists, key);
      for i := 0 to |list|
        invariant value !in list[..i]
      {
        if list[i] == value { return true; }
      }
      return false;
    }

    /** Add an element to the list of a key.  Says whether the key is new, and, if repetition is
        to be checked, whether the element was there already. */
    method InsertVertexEdge(key: HT.Key, value: nat, dedup: bool) returns (isNew: bool, isDup: bool)
      modifies this
      ensures isNew <==> ListAt(old(lists), key) == []
      ensures isDup <==> dedup && value in ListAt(old(lists), key)
      ensures lists == if isDup then old(lists) else Append(old(lists), key, value)
    {
      if ListAt(lists, key) == [] {
        assert ListAt(lists, key) + [value] == [value];
        lists := lists[key := [value]];
        return true, false;
      }
      if dedup {
        var dup := IsDup(key, value);
        if dup { return false, true; }
      }
      lists := lists[key := ListAt(lists, key) + [value]];
      return false, false;
    }

    method InsertTripleOut(t: Triple, checkDup: bool, ghost outs: seq<Triple>, ghost ins: seq<Triple>, ghost sid: nat, ghost n: nat)
      requires n > 0 && t.s % n == sid && GoodTriple(t) && KindsApart(outs + [t]) && DynOk(lists, outs, ins, sid, n, checkDup)
      modifies this
      ensures DynOk(lists, outs + [t], ins, sid, n, checkDup)
      ensures TookOut(old(lists), lists, t, checkDup)
    {
      hide DynOk, GoodTriple, KindsApart, TookOut;
      ghost var lists0 := lists;
      var isNew, isDup;
      if t.p == TYPE_ID {
        isNew, isDup := InsertVertexEdge(HT.Key(t.s, t.p, GS.DIR_OUT), t.o, true);
        if !isDup {
          var _, _ := InsertVertexEdge(HT.Key(0, t.o, GS.DIR_IN), t.s, false);
        }
        OutTypeOk(lists0, outs, ins, sid, n, checkDup, t);
        TypeTook(lists0, outs, ins, sid, n, checkDup, t);
      } else {
        isNew, isDup := InsertVertexEdge(HT.Key(t.s, t.p, GS.DIR_OUT), t.o, checkDup);
        if isNew {
          var _, _ := InsertVertexEdge(HT.Key(0, t.p, GS.DIR_IN), t.s, false);
        }
        OutNormalOk(lists0, outs, ins, sid, n, checkDup, t);
        OutTook(lists0, outs, ins, sid, n, checkDup, t);
      }
    }

    method InsertTripleIn(t: Triple, checkDup: bool, ghost outs: seq<Triple>, ghost ins: seq<Triple>, ghost sid: nat, ghost n: nat)
      requires n > 0 && t.o % n == sid && GoodTriple(t) && DynOk(lists, outs, ins, sid, n, checkDup)
      modifies this
      ensures DynOk(lists, outs, ins + [t], sid, n, checkDup)
      ensures TookIn(old(lists), lists, t, checkDup)
    {
      hide DynOk, GoodTriple;
      ghost var lists0 := lists;
      if t.p == TYPE_ID {
        InSkipOk(lists0, outs, ins, sid, n, checkDup, t);
        return;
      }
      var isNew, isDup := InsertVertexEdge(HT.Key(t.o, t.p, GS.DIR_IN), t.s, checkDup);
      if isNew {
        var _, _ := InsertVertexEdge(HT.Key(0, t.p, GS.DIR_OUT), t.o, false);
      }
      InNormalOk(lists0, outs, ins, sid, n, checkDup, t);
      InTook(lists0, outs, ins, sid, n, checkDup, t);
    }

    /** Load triples into the running server: each goes to its subject's and its object's owner. */
    method DynamicLoad(ts: seq<Triple>, checkDup: bool, ghost before: seq<Triple>, sid: nat, n: nat)
      requires n > 0 && AllGood(ts) && KindsApart(before + ts) && DynOk(lists, before, before, sid, n, checkDup)
      modifies this
      ensures DynOk(lists, before + ts, before + ts, sid, n, checkDup)
      ensures TookAll(old(lists), lists, ts, sid, n, checkDup)
    {
      hide DynOk, TookOut, TookIn;
      assert before + ts[..0] == before;
      assert TookAll(old(lists), lists, ts[..0], sid, n, checkDup);
      for i := 0 to |ts|
        invariant DynOk(lists, before + ts[..i], before + ts[..i], sid, n, checkDup)
        invariant TookAll(old(lists), lists, ts[..i], sid, n, checkDup)
      {
        hide TookAll;
        ghost var done := before + ts[..i];
        ghost var a := lists;
        FewerApart(before, ts, i + 1);
        assert before + ts[..i + 1] == done + [ts[i]];
        if ts[i].s % n == sid {
          InsertTripleOut(ts[i], checkDup, done, done, sid, n);
        } else {
          OutSkipOk(lists, done, done, sid, n, checkDup, ts[i]);
        }
        ghost var b := lists;
        if ts[i].o % n == sid {
          InsertTripleIn(ts[i], checkDup, done + [ts[i]], done, sid, n);
        } else {
          InSkipOk(lists, done + [ts[i]], done, sid, n, checkDup, ts[i]);
        }
        TookNext(old(lists), a, b, lists, ts[..i], ts[i], sid, n, checkDup);
        assert ts[..i] + [ts[i]] == ts[..i + 1];
      }
      assert ts[..|ts|] == ts;
    }
  }

  /** Any triples, with repetitions, inserted with checks into a server that has loaded others,
      or nothing: it then holds what loading all of them in bulk leaves. */
  method InsertInto(server: DynServer, ts: seq<Triple>, ghost before: seq<Triple>, sid: nat, n: nat)
    requires n > 0 && AllGood(before) && AllGood(ts) && KindsApart(before + ts)
    requires Loaded(server.lists, before, sid, n) && InListsDistinct(server.lists)
    modifies server
    ensures Loaded(server.lists, before + ts, sid, n) && InListsDistinct(server.lists)
  {
    hide Loaded, DynOk, InListsDistinct, KindsApart;
    LoadedIsDyn(server.lists, before, sid, n, true);
    server.DynamicLoad(ts, true, before, sid, n);
    assert AllGood(before + ts);
    DynIsLoaded(server.lists, before + ts, sid, n);
  }

  /** A new server filled by inserts only. */
  method InsertAll(ts: seq<Triple>, sid: nat, n: nat) returns (server: DynServer)
    requires n > 0 && AllGood(ts) && KindsApart(ts)
    ensures fresh(server) && Loaded(server.lists, ts, sid, n) && InListsDistinct(server.lists)
  {
    hide Loaded, InListsDistinct, KindsApart;
    server := new DynServer();
    EmptyIsLoaded(sid, n);
    assert [] + ts == ts;
    InsertInto(server, ts, [], sid, n);
  }

  lemma FewerApart(before: seq<Triple>, ts: seq<Triple>, i: nat)
    requires i <= |ts| && KindsApart(before + ts)
    ensures KindsApart(before + ts[..i])
  {
    var a, b := before + ts[..i], before + ts;
    assert forall j :: 0 <= j < |a| ==> a[j] == b[j];
  }

  // ---- dynamic and bulk loading agree ----

  /** With checks for repetition, the lists are those that bulk loading the triples leaves. */
  lemma DynIsLoaded(lists: Lists, ts: seq<Triple>, sid: nat, n: nat)
    requires n > 0 && AllGood(ts) && DynOk(lists, ts, ts, sid, n, true)
    ensures Loaded(lists, ts, sid, n) && InListsDistinct(lists)
  {
    hide Belongs, AllGood, ListOk;
    forall k | k in lists
      ensures k.pid > 0 && k.dir <= 1 && lists[k] != []
      ensures Distinct(lists[k])
    {
      KeyFits(lists, ts, sid, n, k);
    }
    forall k: HT.Key | k.vid > 0
      ensures k in lists <==> k.vid % n == sid && Wanted(ts, k)
      ensures k in lists ==> ExactList(lists[k], ts, k)
    {
      NormalAgree(lists, ts, sid, n, k);
    }
    forall p: nat, dir: nat | p > 0 && dir <= 1
      ensures IndexExact(ListAt(lists, IndexKey(p, dir)), ts, p, dir, sid, n)
    {
      IndexAgree(lists, ts, sid, n, p, dir);
    }
  }

  lemma KeyFits(lists: Lists, ts: seq<Triple>, sid: nat, n: nat, k: HT.Key)
    requires n > 0 && DynOk(lists, ts, ts, sid, n, true) && k in lists
    ensures k.pid > 0 && k.dir <= 1 && lists[k] != [] && Distinct(lists[k])
  {
    assert ListOk(lists, ts, ts, sid, n, true, k);
    assert lists[k][0] in ListAt(lists, k);
  }

  /** A loaded server is ready for inserts; with checks, if its in-lists have no repetition. */
  lemma LoadedIsDyn(lists: Lists, ts: seq<Triple>, sid: nat, n: nat, check: bool)
    requires n > 0 && AllGood(ts) && Loaded(lists, ts, sid, n) && (check ==> InListsDistinct(lists))
    ensures DynOk(lists, ts, ts, sid, n, check)
  {
    hide Belongs, AllGood, Loaded;
    forall k: HT.Key | k.pid > 0
      ensures ListOk(lists, ts, ts, sid, n, check, k)
    {
      if k.vid > 0 { NormalIsDyn(lists, ts, sid, n, check, k); } else { IndexIsDyn(lists, ts, sid, n, check, k); }
    }
    LoadedKeys(lists, ts, sid, n);
  }

  lemma LoadedKeys(lists: Lists, ts: seq<Triple>, sid: nat, n: nat)
    requires n > 0 && Loaded(lists, ts, sid, n)
    ensures forall k :: k in lists ==> k.pid > 0 && k.dir <= 1 && lists[k] != []
  {
  }

  lemma NormalIsDyn(lists: Lists, ts: seq<Triple>, sid: nat, n: nat, check: bool, k: HT.Key)
    requires n > 0 && AllGood(ts) && Loaded(lists, ts, sid, n) && (check ==> InListsDistinct(lists)) && k.pid > 0 && k.vid > 0
    ensures ListOk(lists, ts, ts, sid, n, check, k)
  {
    hide Belongs, AllGood, IndexExact;
    WantedMeans(ts, sid, n, k);
    if k in lists {
      assert ExactList(lists[k], ts, k);
      TypeOut(ts, k);
    } else {
      forall x: nat
        ensures !Belongs(ts, ts, sid, n, k, x)
      {
      }
    }
  }

  lemma TypeOut(ts: seq<Triple>, k: HT.Key)
    requires AllGood(ts) && Wanted(ts, k)
    ensures k.dir == GS.DIR_OUT || (k.dir == GS.DIR_IN && k.pid != TYPE_ID)
  {
    var x: nat :| ArcIn(ts, k, x);
    if k.dir == GS.DIR_IN { assert GoodTriple(Triple(x, k.pid, k.vid)); }
  }

  lemma IndexIsDyn(lists: Lists, ts: seq<Triple>, sid: nat, n: nat, check: bool, k: HT.Key)
    requires n > 0 && Loaded(lists, ts, sid, n) && k.pid > 0 && k.vid == 0
    ensures ListOk(lists, ts, ts, sid, n, check, k)
  {
    hide Wanted, ExactList, Touches;
    if k.dir <= 1 {
      assert k == IndexKey(k.pid, k.dir);
      assert IndexExact(ListAt(lists, k), ts, k.pid, k.dir, sid, n);
    }
  }

  lemma EmptyIsLoaded(sid: nat, n: nat)
    requires n > 0
    ensures Loaded(map[], [], sid, n) && InListsDistinct(map[])
  {
    forall k: HT.Key
      ensures !Wanted([], k)
    {
    }
    forall p: nat, dir: nat | p > 0 && dir <= 1
      ensures IndexExact(ListAt(map[], IndexKey(p, dir)), [], p, dir, sid, n)
    {
    }
  }

  lemma NormalAgree(lists: Lists, ts: seq<Triple>, sid: nat, n: nat, k: HT.Key)
    requires n > 0 && AllGood(ts) && DynOk(lists, ts, ts, sid, n, true) && (k in lists ==> k.pid > 0) && k.vid > 0
    ensures k in lists <==> k.vid % n == sid && Wanted(ts, k)
    ensures k in lists ==> ExactList(lists[k], ts, k)
  {
    hide DynOk;
    WantedMeans(ts, sid, n, k);
    if k.pid > 0 {
      NoEmpty(lists, ts, ts, sid, n, true, k);
      ListMeans(lists, ts, ts, sid, n, true, k, 0);
    }
  }

  lemma WantedMeans(ts: seq<Triple>, sid: nat, n: nat, k: HT.Key)
    requires n > 0 && AllGood(ts) && k.vid > 0
    ensures k.vid % n == sid && Wanted(ts, k) <==> k.pid > 0 && exists x: nat :: Belongs(ts, ts, sid, n, k, x)
    ensures k.vid % n == sid && Wanted(ts, k) ==> forall x: nat :: Belongs(ts, ts, sid, n, k, x) <==> ArcIn(ts, k, x)
  {
    forall x: nat | ArcIn(ts, k, x)
      ensures k.pid > 0 && (k.dir == GS.DIR_IN ==> (IsIndexId(k.vid) <==> k.pid == TYPE_ID))
    {
      var t := if k.dir == GS.DIR_OUT then Triple(k.vid, k.pid, x) else Triple(x, k.pid, k.vid);
      assert t in ts && GoodTriple(t);
    }
    if k.vid % n == sid && Wanted(ts, k) {
      var x: nat :| ArcIn(ts, k, x);
      assert Belongs(ts, ts, sid, n, k, x);
    }
  }

  lemma IndexAgree(lists: Lists, ts: seq<Triple>, sid: nat, n: nat, p: nat, dir: nat)
    requires n > 0 && DynOk(lists, ts, ts, sid, n, true) && p > 0 && dir <= 1
    ensures IndexExact(ListAt(lists, IndexKey(p, dir)), ts, p, dir, sid, n)
  {
    hide DynOk;
    NoEmpty(lists, ts, ts, sid, n, true, IndexKey(p, dir));
  }

  // ---- the integrity that gstore_check tests ----

  predicate Once(list: seq<nat>, v: nat) { multiset(list)[v] == 1 }

  /** Normal keys and indexes agree, whether or not repetition is checked: a vertex with a list
      is in the index exactly once, and one in the index has a list. */
  lemma IntegrityHolds(lists: Lists, ts: seq<Triple>, sid: nat, n: nat, check: bool, v: nat, p: nat)
    requires n > 0 && DynOk(lists, ts, ts, sid, n, check) && v > 0 && IsPredicate(p) && KindsApart(ts)
    ensures HT.Key(v, p, GS.DIR_OUT) in lists ==> Once(ListAt(lists, IndexKey(p, GS.DIR_IN)), v)
    ensures HT.Key(v, p, GS.DIR_IN) in lists ==> Once(ListAt(lists, IndexKey(p, GS.DIR_OUT)), v)
    ensures v in ListAt(lists, IndexKey(p, GS.DIR_OUT)) ==> HT.Key(v, p, GS.DIR_IN) in lists
    ensures v in ListAt(lists, IndexKey(p, GS.DIR_IN)) ==>
      HT.Key(v, p, GS.DIR_OUT) in lists || p in ListAt(lists, TypeKey(v))
    ensures p in ListAt(lists, TypeKey(v)) ==> Once(ListAt(lists, IndexKey(p, GS.DIR_IN)), v)
  {
    hide DynOk;
    var o, i, t := HT.Key(v, p, GS.DIR_OUT), HT.Key(v, p, GS.DIR_IN), TypeKey(v);
    ListMeans(lists, ts, ts, sid, n, check, o, 0);
    ListMeans(lists, ts, ts, sid, n, check, i, 0);
    ListMeans(lists, ts, ts, sid, n, check, t, p);
    ListMeans(lists, ts, ts, sid, n, check, IndexKey(p, GS.DIR_IN), v);
    ListMeans(lists, ts, ts, sid, n, check, IndexKey(p, GS.DIR_OUT), v);
    NoEmpty(lists, ts, ts, sid, n, check, o);
    NoEmpty(lists, ts, ts, sid, n, check, i);
    NoEmpty(lists, ts, ts, sid, n, check, IndexKey(p, GS.DIR_IN));
    NoEmpty(lists, ts, ts, sid, n, check, IndexKey(p, GS.DIR_OUT));
    OnceIn(ListAt(lists, IndexKey(p, GS.DIR_IN)), v);
    OnceIn(ListAt(lists, IndexKey(p, GS.DIR_OUT)), v);
    if Touches(ts, p, GS.DIR_OUT, v) && v % n == sid {
      var x: nat :| ArcIn(ts, o, x);
      assert Belongs(ts, ts, sid, n, o, x);
    }
    if Touches(ts, p, GS.DIR_IN, v) && v % n == sid {
      var x: nat :| ArcIn(ts, i, x);
      assert Belongs(ts, ts, sid, n, i, x);
    }
  }

  lemma {:induction false} OnceIn(list: seq<nat>, v: nat)
    requires Distinct(list)
    ensures v in list <==> Once(list, v)
    ensures v !in list ==> multiset(list)[v] == 0
  {
    if list != [] {
      OnceIn(list[1..], v);
      assert list == [list[0]] + list[1..];
      assert list[0] !in list[1..];
    }
  }
}
