/**
 * Merging the loading threads' small free lists into the shared ones
 * (core/buddy_malloc.hpp, merge_freelists).
 *
 * At each level the threads' lists are chained one after the other behind the shared head.
 * What the shared list held before is not chained in; so the merge keeps the allocator
 * invariant exactly when at each level the shared list or all the threads' lists are empty.
 */
module MergeFreeLists {
  import opened BuddyTiling
  import opened FreeLists
  import opened BuddyMalloc

  /** The threads' lists of one level, one after the other. */
  ghost function Gathered(lists: Lists, l: nat, n: nat): seq<nat>
    requires forall j :: 0 <= j < n ==> Tmp(l, j) in lists
  {
    if n == 0 then [] else Gathered(lists, l, n - 1) + lists[Tmp(l, n - 1)]
  }

  // ---- chaining one list behind another ----

  /** Link the nodes t behind the node `cur` and close the list at its head. */
  function Chain(h: Heap, head: nat, cur: nat, t: seq<nat>): Heap
    requires t != [] && cur in h && t[0] in h && t[|t| - 1] in h
  {
    var h1 := h[cur := h[cur].(next := t[0])];
    var h2 := h1[t[0] := h1[t[0]].(prev := cur)];
    h2[t[|t| - 1] := h2[t[|t| - 1]].(next := head)]
  }

  ghost function LastOf(head: nat, l: seq<nat>): nat {
    if l == [] then head else l[|l| - 1]
  }

  lemma ChainOne(h: Heap, head: nat, acc: seq<nat>, thead: nat, t: seq<nat>)
    requires head in h && (acc != [] ==> ListOk(h, head, acc)) && ListOk(h, thead, t)
    requires t != [] && NoDup(acc + t) && head !in acc + t
    ensures LastOf(head, acc) in h && t[0] in h && t[|t| - 1] in h
    ensures ListOk(Chain(h, head, LastOf(head, acc), t), head, acc + t)
  {
    assert NodeOk(h, thead, t, 0) && NodeOk(h, thead, t, |t| - 1);
    if acc != [] { assert NodeOk(h, head, acc, |acc| - 1); }
    var cur := LastOf(head, acc);
    var h', l := Chain(h, head, cur, t), acc + t;
    assert forall k :: 0 <= k < |acc| ==> l[k] == acc[k];
    assert forall k :: 0 <= k < |t| ==> l[|acc| + k] == t[k];
    assert acc != [] ==> cur == l[|acc| - 1];
    forall k | 0 <= k < |l|
      ensures NodeOk(h', head, l, k)
    {
      if k < |acc| {
        assert NodeOk(h, head, acc, k);
      } else {
        assert NodeOk(h, thead, t, k - |acc|);
      }
    }
  }

  lemma ChainOther(h: Heap, head: nat, cur: nat, t: seq<nat>, head': nat, l: seq<nat>)
    requires t != [] && cur in h && t[0] in h && t[|t| - 1] in h
    requires ListOk(h, head', l) && head' != cur && head' !in t && cur !in l && forall k :: 0 <= k < |t| ==> t[k] !in l
    ensures ListOk(Chain(h, head, cur, t), head', l)
  {
    forall k | 0 <= k < |l|
      ensures NodeOk(Chain(h, head, cur, t), head', l, k)
    {
      assert NodeOk(h, head', l, k);
    }
  }

  lemma ChainFrame(h: Heap, head: nat, cur: nat, t: seq<nat>)
    requires t != [] && cur in h && t[0] in h && t[|t| - 1] in h
    ensures var h' := Chain(h, head, cur, t);
      forall a :: a in h ==> a in h' && h'[a].inUse == h[a].inUse && h'[a].level == h[a].level
  {
  }

  // ---- one thread's list of one level ----

  /** Nodes of the chain so far stay, the thread's nodes join them, whatever else the shared
      list held is forgotten. */
  ghost function Rehome(home: map<nat, ListId>, l: nat, j: nat, acc: seq<nat>): map<nat, ListId> {
    map x | x in home && (home[x] == Small(l) ==> x in acc) :: if home[x] == Tmp(l, j) then Small(l) else home[x]
  }

  lemma ChainLinked(h: Heap, lists: Lists, home: map<nat, ListId>, l: nat, j: nat, acc: seq<nat>)
    requires Linked(h, lists, home) && Small(l) in lists && Tmp(l, j) in lists && lists[Tmp(l, j)] != []
    requires acc == [] || acc == lists[Small(l)]
    ensures var head, t := HeadIdx(Small(l)), lists[Tmp(l, j)];
      && LastOf(head, acc) in h && t[0] in h && t[|t| - 1] in h
      && Linked(Chain(h, head, LastOf(head, acc), t), (lists - {Tmp(l, j)})[Small(l) := acc + t], Rehome(home, l, j, acc))
  {
    hide ListOk;
    var s, p := Small(l), Tmp(l, j);
    var head, t := HeadIdx(s), lists[p];
    assert OneList(h, lists, home, s) && OneList(h, lists, home, p);
    DisjointLists(h, lists, home, s, p, acc);
    HeadInHeap(h, head, lists[s]);
    ChainOne(h, head, acc, HeadIdx(p), t);
    var cur := LastOf(head, acc);
    var h', lists', home' := Chain(h, head, cur, t), (lists - {p})[s := acc + t], Rehome(home, l, j, acc);
    forall i | i in lists'
      ensures OneList(h', lists', home', i)
    {
      assert OneList(h, lists, home, i);
      if i != s {
        if HeadIdx(i) == head { HeadIdxInjective(i, s); }
        ChainOther(h, head, cur, t, HeadIdx(i), lists[i]);
      }
    }
    forall x | x in home'
      ensures AtHome(lists', home', x)
    {
      assert AtHome(lists, home, x);
      InConcat(acc, t, x);
    }
  }

  lemma HeadInHeap(h: Heap, head: nat, l: seq<nat>)
    requires ListOk(h, head, l)
    ensures head in h
  {
  }

  lemma InConcat(a: seq<nat>, b: seq<nat>, x: nat)
    ensures x in a + b <==> x in a || x in b
  {
  }

  lemma DisjointLists(h: Heap, lists: Lists, home: map<nat, ListId>, s: ListId, p: ListId, acc: seq<nat>)
    requires Linked(h, lists, home) && s in lists && p in lists && s != p && (acc == [] || acc == lists[s])
    ensures NoDup(acc + lists[p]) && HeadIdx(s) !in acc + lists[p]
  {
    assert OneList(h, lists, home, s) && OneList(h, lists, home, p);
    var l := acc + lists[p];
    forall a, b | 0 <= a < b < |l|
      ensures l[a] != l[b]
    {
      if b < |acc| {
        assert l[a] == acc[a] && l[b] == acc[b];
      } else if a >= |acc| {
        assert l[a] == lists[p][a - |acc|] && l[b] == lists[p][b - |acc|];
      } else {
        assert l[a] == acc[a] && l[b] == lists[p][b - |acc|];
      }
    }
  }

  lemma DropEmpty(h: Heap, lists: Lists, home: map<nat, ListId>, p: ListId)
    requires Linked(h, lists, home) && p in lists && lists[p] == []
    ensures Linked(h, lists - {p}, home)
  {
    forall i | i in lists - {p}
      ensures OneList(h, lists - {p}, home, i)
    {
      assert OneList(h, lists, home, i);
    }
    forall x | x in home
      ensures AtHome(lists - {p}, home, x)
    {
      assert AtHome(lists, home, x);
    }
  }

  // ---- the whole merge ----

  /** What the shared list of level l holds after the first n threads' lists were chained. */
  ghost function MergedList(lists: Lists, l: nat, n: nat): seq<nat>
    requires Small(l) in lists && forall j :: 0 <= j < n ==> Tmp(l, j) in lists
  {
    if Gathered(lists, l, n) == [] then lists[Small(l)] else Gathered(lists, l, n)
  }

  /** Levels below i are merged, and level i is merged for the threads below j. */
  ghost predicate Progress(was: Lists, lists: Lists, n: nat, i: nat, j: nat)
    requires ThreadLists(was, n) && j <= n
  {
    && (forall id :: id in lists ==> id in was)
    && (forall l: nat :: Large(l) in was ==> Large(l) in lists && lists[Large(l)] == was[Large(l)])
    && (forall l: nat :: Small(l) in was && LOW <= l <= DIV ==>
        (Small(l) in lists && lists[Small(l)] == MergedList(was, l, if l < i then n else if l == i then j else 0)))
    && (forall l: nat, k: nat :: Tmp(l, k) in was ==>
        if l < i || (l == i && k < j) then Tmp(l, k) !in lists
        else Tmp(l, k) in lists && lists[Tmp(l, k)] == was[Tmp(l, k)])
  }

  ghost predicate SameMarks(h: Heap, h': Heap) {
    forall a :: a in h ==> a in h' && h'[a].inUse == h[a].inUse && h'[a].level == h[a].level
  }

  /** At each level the shared list or all the threads' lists are empty. */
  ghost predicate NothingShadowed(lists: Lists, n: nat)
    requires ThreadLists(lists, n)
  {
    forall l :: LOW <= l <= DIV && Small(l) in lists ==> lists[Small(l)] == [] || Gathered(lists, l, n) == []
  }

  lemma {:induction false} InGathered(lists: Lists, l: nat, n: nat, x: nat)
    requires forall j :: 0 <= j < n ==> Tmp(l, j) in lists
    ensures x in Gathered(lists, l, n) <==> exists j :: 0 <= j < n && x in lists[Tmp(l, j)]
  {
    if n > 0 {
      InGathered(lists, l, n - 1, x);
      InConcat(Gathered(lists, l, n - 1), lists[Tmp(l, n - 1)], x);
    }
  }

  /** Which old list a node of a merged list comes from. */
  lemma Origin(s: State, lists: Lists, n: nat, id: ListId, x: nat)
    requires Sound(s, {}) && ThreadLists(s.lists, n) && Progress(s.lists, lists, n, DIV + 1, 0)
    requires id in lists && x in lists[id]
    ensures x in s.home && x in s.lists[s.home[x]] && !id.Tmp?
    ensures id.Large? ==> s.home[x] == id
    ensures id.Small? ==> if Gathered(s.lists, id.level, n) == [] then s.home[x] == id
                          else s.home[x].Tmp? && s.home[x].level == id.level
  {
    hide Pow2, Tiling, Coalesced, HeadIdx, ListOk;
    assert OneList(s.heap, s.lists, s.home, id);
    if id.Small? && Gathered(s.lists, id.level, n) != [] {
      InGathered(s.lists, id.level, n, x);
      var j :| 0 <= j < n && x in s.lists[Tmp(id.level, j)];
      assert OneList(s.heap, s.lists, s.home, Tmp(id.level, j));
    }
  }

  lemma MergeKeepsSound(s: State, s': State, n: nat)
    requires Sound(s, {}) && ThreadLists(s.lists, n) && Progress(s.lists, s'.lists, n, DIV + 1, 0)
    requires Linked(s'.heap, s'.lists, s'.home) && SameMarks(s.heap, s'.heap)
    requires s'.blocks == s.blocks && s'.top == s.top
    requires NothingShadowed(s.lists, n)
    ensures Sound(s', {})
  {
    hide Pow2, Tiling, Coalesced, HeadIdx, ListOk;
    forall x | x in s.blocks
      ensures AgreeAt(s'.heap, s'.blocks, s'.home, x)
    {
      assert AgreeAt(s.heap, s.blocks, s.home, x);
      if x in s.home { Kept(s, s', n, x); }
      if x in s'.home {
        assert AtHome(s'.lists, s'.home, x);
        Origin(s, s'.lists, n, s'.home[x], x);
      }
    }
    forall x | x in s'.home
      ensures x in s'.blocks
    {
      assert AtHome(s'.lists, s'.home, x);
      Origin(s, s'.lists, n, s'.home[x], x);
    }
  }

  lemma Kept(s: State, s': State, n: nat, x: nat)
    requires Sound(s, {}) && ThreadLists(s.lists, n) && Progress(s.lists, s'.lists, n, DIV + 1, 0)
    requires Linked(s'.heap, s'.lists, s'.home) && NothingShadowed(s.lists, n) && x in s.home
    ensures x in s'.home
  {
    hide Pow2, Tiling, Coalesced, HeadIdx, ListOk;
    assert AtHome(s.lists, s.home, x);
    var id := s.home[x];
    assert OneList(s.heap, s.lists, s.home, id);
    var id' := if id.Tmp? then Small(id.level) else id;
    if id.Tmp? { InGathered(s.lists, id.level, n, x); }
    assert x in s'.lists[id'];
    assert OneList(s'.heap, s'.lists, s'.home, id');
  }

  /** A shared list that is not empty is lost when a thread's list of its level is not. */
  lemma ShadowedIsLost(s: State, s': State, n: nat)
    requires Sound(s, {}) && ThreadLists(s.lists, n) && Progress(s.lists, s'.lists, n, DIV + 1, 0)
    requires s'.blocks == s.blocks && Sound(s', {})
    ensures NothingShadowed(s.lists, n)
  {
    hide Pow2, Tiling, Coalesced, HeadIdx, ListOk;
    forall l | LOW <= l <= DIV && Small(l) in s.lists
      ensures s.lists[Small(l)] == [] || Gathered(s.lists, l, n) == []
    {
      if s.lists[Small(l)] != [] {
        var x := s.lists[Small(l)][0];
        assert OneList(s.heap, s.lists, s.home, Small(l));
        ListedIsFree(s, x);
        assert AgreeAt(s'.heap, s'.blocks, s'.home, x);
        assert AtHome(s'.lists, s'.home, x);
        Origin(s, s'.lists, n, s'.home[x], x);
      }
    }
  }

  lemma ProgressStart(lists: Lists, n: nat)
    requires ThreadLists(lists, n)
    ensures Progress(lists, lists, n, LOW, 0)
  {
  }

  lemma ProgressLevel(was: Lists, lists: Lists, n: nat, i: nat)
    requires ThreadLists(was, n) && Progress(was, lists, n, i, n)
    ensures Progress(was, lists, n, i + 1, 0)
  {
  }

  lemma ProgressThread(was: Lists, lists: Lists, n: nat, i: nat, j: nat)
    requires ThreadLists(was, n) && j < n && Progress(was, lists, n, i, j) && LOW <= i <= DIV && Small(i) in was
    ensures Small(i) in lists && Tmp(i, j) in lists && lists[Tmp(i, j)] == was[Tmp(i, j)]
    ensures var acc, t := Gathered(was, i, j), was[Tmp(i, j)];
      && (acc == [] || acc == lists[Small(i)])
      && acc + t == Gathered(was, i, j + 1)
      && (t == [] ==> Progress(was, lists - {Tmp(i, j)}, n, i, j + 1))
      && (t != [] ==> Progress(was, (lists - {Tmp(i, j)})[Small(i) := acc + t], n, i, j + 1))
  {
    assert forall m: nat {:trigger Gathered(was, i, m)} :: m == j + 1 ==>
      Gathered(was, i, m) == Gathered(was, i, j) + was[Tmp(i, j)];
  }

  /** The node after which the next thread's list is chained. */
  method ChainThread(a: Allocator, l: nat, j: nat, cur: nat, ghost acc: seq<nat>) returns (last: nat)
    requires Linked(a.st.heap, a.st.lists, a.st.home) && a.st.heap == a.heap
    requires LOW <= l <= DIV && Small(l) in a.st.lists && Tmp(l, j) in a.st.lists
    requires acc == [] || acc == a.st.lists[Small(l)]
    requires cur == LastOf(HeadIdx(Small(l)), acc)
    modifies a`heap, a`st
    ensures Linked(a.st.heap, a.st.lists, a.st.home) && a.st.heap == a.heap
    ensures a.st.blocks == old(a.st.blocks) && a.st.top == old(a.st.top) && SameMarks(old(a.heap), a.heap)
    ensures last == LastOf(HeadIdx(Small(l)), acc + old(a.st.lists[Tmp(l, j)]))
    ensures a.st.lists == if old(a.st.lists[Tmp(l, j)]) == [] then old(a.st.lists) - {Tmp(l, j)}
      else (old(a.st.lists) - {Tmp(l, j)})[Small(l) := acc + old(a.st.lists[Tmp(l, j)])]
  {
    hide Linked, HeadIdx;
    ghost var t := a.st.lists[Tmp(l, j)];
    var head, thead := HeadIdx(Small(l)), HeadIdx(Tmp(l, j));
    ListEnd(a.heap, a.st.lists, a.st.home, Tmp(l, j));
    if a.heap[thead].next == thead {
      DropEmpty(a.heap, a.st.lists, a.st.home, Tmp(l, j));
      a.st := a.st.(lists := a.st.lists - {Tmp(l, j)});
      assert acc + t == acc;
      return cur;
    }
    ChainLinked(a.heap, a.st.lists, a.st.home, l, j, acc);
    ghost var h' := Chain(a.heap, head, cur, t);
    ChainFrame(a.heap, head, cur, t);
    var next := a.heap[thead].next;
    ghost var heap0 := a.heap;
    a.heap := a.heap[cur := a.heap[cur].(next := next)];
    a.heap := a.heap[next := a.heap[next].(prev := cur)];
    last := next;
    ghost var k := 0;
    while a.heap[last].next != thead
      invariant 0 <= k < |t| && last == t[k] && a.heap == ChainFront(heap0, cur, t[0]) && last in a.heap
      decreases |t| - k
      modifies {}
    {
      WalkOn(heap0, a.st.lists, a.st.home, l, j, acc, k);
      last := a.heap[last].next;
      k := k + 1;
    }
    WalkEnd(heap0, a.st.lists, a.st.home, l, j, acc, k);
    a.heap := a.heap[last := a.heap[last].(next := head)];
    a.st := a.st.(heap := a.heap, lists := (a.st.lists - {Tmp(l, j)})[Small(l) := acc + t],
                  home := Rehome(a.st.home, l, j, acc));
  }

  function ChainFront(h: Heap, cur: nat, first: nat): Heap
    requires cur in h && first in h
  {
    var h1 := h[cur := h[cur].(next := first)];
    h1[first := h1[first].(prev := cur)]
  }

  lemma ListEnd(h: Heap, lists: Lists, home: map<nat, ListId>, id: ListId)
    requires Linked(h, lists, home) && id in lists
    ensures HeadIdx(id) in h && (h[HeadIdx(id)].next == HeadIdx(id) <==> lists[id] == [])
    ensures lists[id] != [] ==> h[HeadIdx(id)].next == lists[id][0]
  {
    assert OneList(h, lists, home, id);
  }

  /** The walk along a thread's list does not see the links changed before it. */
  lemma WalkOn(h: Heap, lists: Lists, home: map<nat, ListId>, l: nat, j: nat, acc: seq<nat>, k: nat)
    requires Linked(h, lists, home) && Small(l) in lists && Tmp(l, j) in lists && k < |lists[Tmp(l, j)]|
    requires acc == [] || acc == lists[Small(l)]
    ensures var cur, t := LastOf(HeadIdx(Small(l)), acc), lists[Tmp(l, j)];
      && cur in h && t[0] in h && t[k] in h
      && ChainFront(h, cur, t[0])[t[k]].next == NextOf(HeadIdx(Tmp(l, j)), t, k)
      && HeadIdx(Tmp(l, j)) !in t
      && forall i :: 0 <= i < |t| ==> t[i] in ChainFront(h, cur, t[0])
  {
    var t := lists[Tmp(l, j)];
    assert OneList(h, lists, home, Tmp(l, j)) && OneList(h, lists, home, Small(l));
    DisjointLists(h, lists, home, Small(l), Tmp(l, j), acc);
    assert NodeOk(h, HeadIdx(Tmp(l, j)), t, k) && NodeOk(h, HeadIdx(Tmp(l, j)), t, 0);
    forall i | 0 <= i < |t|
      ensures t[i] in h
    {
      assert NodeOk(h, HeadIdx(Tmp(l, j)), t, i);
    }
    if acc != [] {
      assert NodeOk(h, HeadIdx(Small(l)), acc, |acc| - 1);
      assert (acc + t)[|acc| - 1] == acc[|acc| - 1];
    }
    assert (acc + t)[|acc| + k] == t[k];
  }

  lemma WalkEnd(h: Heap, lists: Lists, home: map<nat, ListId>, l: nat, j: nat, acc: seq<nat>, k: nat)
    requires Linked(h, lists, home) && Small(l) in lists && Tmp(l, j) in lists && k < |lists[Tmp(l, j)]|
    requires acc == [] || acc == lists[Small(l)]
    requires var cur, t := LastOf(HeadIdx(Small(l)), acc), lists[Tmp(l, j)];
      && cur in h && t[0] in h && t[k] in ChainFront(h, cur, t[0])
      && ChainFront(h, cur, t[0])[t[k]].next == HeadIdx(Tmp(l, j))
    ensures k == |lists[Tmp(l, j)]| - 1
  {
    WalkOn(h, lists, home, l, j, acc, k);
  }

  /** Merge all threads' lists.  The allocator invariant survives exactly when no shared list
      is shadowed by a thread's list. */
  method Merge(a: Allocator)
    requires a.Valid() && ThreadLists(a.st.lists, a.threads)
    modifies a`heap, a`st
    ensures a.Valid() <==> old(NothingShadowed(a.st.lists, a.threads))
    ensures a.st.blocks == old(a.st.blocks) && a.top == old(a.top)
    ensures Progress(old(a.st.lists), a.st.lists, a.threads, DIV + 1, 0)
  {
    hide Pow2, Sound, HeadIdx, Gathered, Linked;
    ghost var s := a.st;
    SoundParts(s);
    ProgressStart(s.lists, a.threads);
    for i := LOW to DIV + 1
      invariant Linked(a.st.heap, a.st.lists, a.st.home) && a.st.heap == a.heap
      invariant a.st.blocks == s.blocks && a.st.top == s.top && SameMarks(s.heap, a.heap)
      invariant Progress(s.lists, a.st.lists, a.threads, i, 0)
    {
      var cur := HeadIdx(Small(i));
      NoneGathered(s.lists, i);
      for j := 0 to a.threads
        invariant Linked(a.st.heap, a.st.lists, a.st.home) && a.st.heap == a.heap
        invariant a.st.blocks == s.blocks && a.st.top == s.top && SameMarks(s.heap, a.heap)
        invariant Progress(s.lists, a.st.lists, a.threads, i, j)
        invariant cur == LastOf(HeadIdx(Small(i)), Gathered(s.lists, i, j))
      {
        ProgressThread(s.lists, a.st.lists, a.threads, i, j);
        cur := ChainThread(a, i, j, cur, Gathered(s.lists, i, j));
      }
      ProgressLevel(s.lists, a.st.lists, a.threads, i);
    }
    if NothingShadowed(s.lists, a.threads) {
      MergeKeepsSound(s, a.st, a.threads);
    } else if Sound(a.st, {}) {
      ShadowedIsLost(s, a.st, a.threads);
    }
  }

  lemma NoneGathered(lists: Lists, l: nat)
    ensures Gathered(lists, l, 0) == []
  {
  }

  lemma SoundParts(s: State)
    requires Sound(s, {})
    ensures Linked(s.heap, s.lists, s.home) && forall l :: LOW <= l <= DIV ==> Small(l) in s.lists
  {
  }

  // ---- whole runs ----

  /** Only loading threads have allocated: the shared small lists are still empty. */
  lemma NothingShared(lists: Lists, n: nat)
    requires ThreadLists(lists, n) && forall l: nat :: Small(l) in lists ==> lists[Small(l)] == []
    ensures NothingShadowed(lists, n)
  {
  }

  /** Loading: initialize, allocate from the loading threads in any order, and merge.  The merge
      keeps the allocator consistent, and every block handed out. */
  method LoadThenMerge(size: nat, n: nat, requests: seq<(nat, nat)>) returns (a: Allocator, results: seq<Result>)
    requires Pow2(UP) <= size && (UP - LOW + 10 + n * (DIV - LOW + 1)) * HEADER <= Pow2(DIV)
    requires forall i :: 0 <= i < |requests| ==> requests[i].1 < n
    ensures a.Valid() && |results| == |requests| && a.top <= (|requests| + 1) * Pow2(UP)
    ensures forall i :: 0 <= i < |results| ==> (results[i] == TooLarge <==> requests[i].0 + HEADER > Pow2(UP))
    ensures forall i :: 0 <= i < |results| && results[i] == OutOfMemory ==> a.top + Pow2(UP) > size
    ensures forall i :: 0 <= i < |results| && results[i].Ok? ==> Holds(a.st.blocks, requests[i].0, results[i].idx)
    ensures forall i, j :: 0 <= i < j < |results| && results[i].Ok? && results[j].Ok? ==> results[i].idx != results[j].idx
  {
    hide Pow2, Sound, HeadIdx, IsLevelFor, ServesSize, NoFitFor, Fills;
    a := new Allocator(size, n);
    results := [];
    for k := 0 to |requests|
      invariant a.Valid() && a.threads == n && |results| == k && ThreadLists(a.st.lists, n) && fresh(a)
      invariant forall l: nat :: Small(l) in a.st.lists ==> a.st.lists[Small(l)] == []
      invariant a.heapSize == size && a.top <= (k + 1) * Pow2(UP)
      invariant forall i :: 0 <= i < k ==> (results[i] == TooLarge <==> requests[i].0 + HEADER > Pow2(UP))
      invariant forall i :: 0 <= i < k && results[i] == OutOfMemory ==> a.top + Pow2(UP) > size
      invariant forall i :: 0 <= i < k && results[i].Ok? ==> Holds(a.st.blocks, requests[i].0, results[i].idx)
      invariant forall i, j :: 0 <= i < j < k && results[i].Ok? && results[j].Ok? ==> results[i].idx != results[j].idx
    {
      ghost var was := a.st;
      var r := a.Malloc(requests[k].0, Loader(requests[k].1));
      results := results + [r];
      assert (k + 2) * Pow2(UP) == (k + 1) * Pow2(UP) + Pow2(UP);
    }
    NothingShared(a.st.lists, n);
    Merge(a);
  }

  /** The block handed out under idx is in use and of the level for its size. */
  ghost predicate Holds(b: Blocks, size: nat, idx: nat) {
    idx >= HEADER && idx - HEADER in Live(b) && IsLevelFor(size, Live(b)[idx - HEADER])
  }

  lemma RoomForHeads()
    ensures (UP - LOW + 10 + 1 * (DIV - LOW + 1)) * HEADER <= Pow2(DIV)
  {
    Pow2Mono(10, DIV);
  }

  lemma FiveForOne()
    ensures IsLevelFor(1, 5) && 1 + HEADER <= Pow2(UP)
  {
    Pow2Mono(10, UP);
  }

  lemma GatheredOne(lists: Lists, l: nat)
    requires Tmp(l, 0) in lists
    ensures Gathered(lists, l, 1) == lists[Tmp(l, 0)]
  {
    assert Gathered(lists, l, 0) == [];
  }

  /** One allocation outside the loading threads before the merge is enough to break it. */
  method SharedThenMerge() returns (a: Allocator)
    ensures !a.Valid()
  {
    hide Pow2, Sound, HeadIdx, IsLevelFor, Gathered, ServesSize, NoFitFor, Allocated;
    RoomForHeads();
    a := new Allocator(3 * Pow2(UP), 1);
    FiveForOne();
    assert NoneFrom(a.st.lists, Shared, 5);
    SoundParts(a.st);
    var r := a.Malloc(1, Shared);
    assert NoneFrom(a.st.lists, Loader(0), 5);
    var r' := a.Malloc(1, Loader(0));
    assert a.st.lists[Small(5)] != [] && a.st.lists[Tmp(5, 0)] != [];
    GatheredOne(a.st.lists, 5);
    Merge(a);
  }
}
