/**
 * The buddy allocator as code (core/buddy_malloc.hpp): headers in raw memory, linked free
 * lists, splitting on malloc and coalescing on free, with a large side and a small side.
 *
 * The model is sequential: the locks of the source are not modelled.  Sizes are exact
 * powers of two; the source's 1 << level on int is not.
 */
module BuddyMalloc {
  import opened BuddyTiling
  import opened FreeLists

  datatype Result = Ok(idx: nat) | OutOfMemory | TooLarge

  /** Which small lists a call uses: the shared ones, or those of one loading thread. */
  datatype Thread = Shared | Loader(tid: nat)

  function SmallList(t: Thread, level: nat): ListId {
    match t
    case Shared => Small(level)
    case Loader(tid) => Tmp(level, tid)
  }

  function ListFor(t: Thread, level: nat): ListId {
    if level >= DIV then Large(level) else SmallList(t, level)
  }

  // ---- sizes ----

  /** The least level, not below LOW, whose blocks hold size bytes and a header. */
  ghost predicate IsLevelFor(size: nat, level: nat) {
    && LOW <= level
    && size + HEADER <= Pow2(level)
    && (level > LOW ==> Pow2(level - 1) < size + HEADER)
  }

  method SizeToLevel(size: nat) returns (level: nat)
    ensures IsLevelFor(size, level)
  {
    level := 0;
    var tmp := 1;
    var need := size + HEADER;
    while tmp < need
      invariant tmp == Pow2(level)
      invariant level > 0 ==> Pow2(level - 1) < need
    {
      tmp := tmp * 2;
      level := level + 1;
    }
    if level < LOW {
      Pow2Mono(level, LOW);
      level := LOW;
    }
  }

  /** The result of a successful malloc: one new live block, of the right level, with the
      returned index just after its header. */
  ghost predicate Allocated(was: Blocks, now: Blocks, size: nat, idx: nat) {
    && idx >= HEADER
    && idx - HEADER !in Live(was)
    && exists level :: IsLevelFor(size, level) && Live(now) == Live(was)[idx - HEADER := level]
  }

  lemma LevelForIsUnique(size: nat, l: nat, m: nat)
    requires IsLevelFor(size, l) && IsLevelFor(size, m)
    ensures l == m
  {
    if l < m { Pow2Mono(l, m - 1); }
    if m < l { Pow2Mono(m, l - 1); }
  }

  // ---- allocator states ----

  datatype State = State(heap: Heap, top: nat, blocks: Blocks, lists: Lists, home: map<nat, ListId>)

  /** The list heads live below 2^DIV, where no block starts. */
  ghost predicate HeadsOk(s: State) {
    && (forall id :: id in s.lists ==> 0 < HeadIdx(id) < Pow2(DIV) && HeadIdx(id) !in s.blocks)
    && (forall l :: LOW <= l <= DIV ==> Small(l) in s.lists)
    && (forall l :: DIV <= l <= UP ==> Large(l) in s.lists)
  }

  /** The allocator invariant; the blocks in `except` are in the middle of an operation. */
  ghost predicate Sound(s: State, except: set<nat>) {
    && Tiling(s.blocks, s.top)
    && Coalesced(s.blocks)
    && Linked(s.heap, s.lists, s.home)
    && Agree(s.heap, s.blocks, s.home, except)
    && HeadsOk(s)
  }

  /** Blocks in a loading thread's list were in it before: what is freed goes to the shared lists. */
  ghost predicate NoneLent(was: map<nat, ListId>, now: map<nat, ListId>) {
    forall y :: y in now && now[y].Tmp? ==> y in was && was[y] == now[y]
  }

  // ---- the elementary operations on headers and lists keep it ----

  ghost predicate CanPush(s: State, id: ListId, n: nat) {
    Linked(s.heap, s.lists, s.home) && id in s.lists && n !in s.home && forall i :: i in s.lists ==> HeadIdx(i) != n
  }

  ghost function PushState(s: State, id: ListId, n: nat, level: nat): State
    requires CanPush(s, id, n)
  {
    PushLinked(s.heap, s.lists, s.home, id, n, level);
    s.(heap := Push(s.heap, HeadIdx(id), n, level), lists := s.lists[id := [n] + s.lists[id]], home := s.home[n := id])
  }

  ghost function UnlinkState(s: State, n: nat, level: nat): State
    requires Linked(s.heap, s.lists, s.home) && n in s.home
  {
    UnlinkLinked(s.heap, s.lists, s.home, n, level);
    s.(heap := Unlink(s.heap, n, level), lists := Remove(s.lists, s.home, n), home := s.home - {n})
  }

  lemma PushFacts(s: State, id: ListId, n: nat, level: nat)
    requires CanPush(s, id, n)
    ensures var s' := PushState(s, id, n, level);
      && Linked(s'.heap, s'.lists, s'.home)
      && s'.lists.Keys == s.lists.Keys && s'.home == s.home[n := id]
      && n in s'.heap && !s'.heap[n].inUse && s'.heap[n].level == level
      && forall a :: a in s.heap && a != n ==>
           a in s'.heap && s'.heap[a].inUse == s.heap[a].inUse && s'.heap[a].level == s.heap[a].level
  {
    PushLinked(s.heap, s.lists, s.home, id, n, level);
    PushFrame(s.heap, HeadIdx(id), n, level);
  }

  lemma UnlinkFacts(s: State, n: nat, level: nat)
    requires Linked(s.heap, s.lists, s.home) && n in s.home
    ensures var s' := UnlinkState(s, n, level);
      && Linked(s'.heap, s'.lists, s'.home)
      && s'.lists.Keys == s.lists.Keys && s'.home == s.home - {n}
      && n in s'.heap && s'.heap[n].inUse && s'.heap[n].level == level
      && forall a :: a in s.heap && a != n ==>
           a in s'.heap && s'.heap[a].inUse == s.heap[a].inUse && s'.heap[a].level == s.heap[a].level
  {
    UnlinkLinked(s.heap, s.lists, s.home, n, level);
    UnlinkFrame(s.heap, n, level);
  }

  ghost function SplitState(s: State, x: nat, id: ListId): State
    requires x in s.blocks && s.blocks[x].level > 0 && CanPush(s, id, x + Pow2(s.blocks[x].level - 1))
  {
    var l := s.blocks[x].level - 1;
    PushState(s, id, x + Pow2(l), l).(blocks := Split(s.blocks, x))
  }

  /** Split the block x, which is being taken, and list its right half. */
  lemma SplitStep(s: State, x: nat, id: ListId)
    requires Sound(s, {x}) && x in s.blocks && !s.blocks[x].free && s.blocks[x].level > LOW
    requires id in s.lists && HomeOk(id, s.blocks[x].level - 1)
    requires x + Pow2(s.blocks[x].level - 1) >= Pow2(DIV)
    ensures CanPush(s, id, x + Pow2(s.blocks[x].level - 1))
    ensures Sound(SplitState(s, x, id), {x})
  {
    hide Pow2, Tiling, Coalesced, Linked, HeadIdx;
    var l := s.blocks[x].level - 1;
    var n := x + Pow2(l);
    SplitTiling(s.blocks, s.top, x);
    SplitCoalesced(s.blocks, s.top, x);
    PushFacts(s, id, n, l);
  }

  /** The block x is out of the tiling's free set already; take its header off the list. */
  lemma TakeStep(s: State, x: nat)
    requires Sound(s, {x}) && x in s.blocks && !s.blocks[x].free && x in s.home
    ensures Sound(UnlinkState(s, x, s.blocks[x].level), {})
  {
    hide Pow2, Tiling, Coalesced, Linked, HeadIdx;
    UnlinkFacts(s, x, s.blocks[x].level);
  }

  /** Decide to use a free block. */
  lemma UseStep(s: State, x: nat)
    requires Sound(s, {}) && x in s.blocks
    ensures Sound(s.(blocks := SetFree(s.blocks, x, false)), {x})
  {
    hide Pow2, Tiling, Coalesced, Linked, HeadIdx;
    SetFreeTiling(s.blocks, s.top, x, false);
    UseCoalesced(s.blocks, x);
  }

  /** The small side lists a block it got from the large side. */
  lemma BorrowStep(s: State, x: nat, id: ListId)
    requires Sound(s, {}) && x in s.blocks && !s.blocks[x].free && id in s.lists
    ensures CanPush(s, id, x)
    ensures Sound(PushState(s, id, x, s.blocks[x].level), {x})
  {
    hide Pow2, Tiling, Coalesced, Linked, HeadIdx;
    assert AgreeAt(s.heap, s.blocks, s.home, x);
    PushFacts(s, id, x, s.blocks[x].level);
  }

  /** Give a block back: list it as free, when its buddy is not free too. */
  lemma ReleaseStep(s: State, x: nat, id: ListId)
    requires Sound(s, {}) && x in s.blocks && !s.blocks[x].free
    requires s.blocks[x].level == UP || !IsFree(s.blocks, Buddy(x, s.blocks[x].level), s.blocks[x].level)
    requires id in s.lists && HomeOk(id, s.blocks[x].level)
    ensures CanPush(s, id, x)
    ensures Sound(PushState(s, id, x, s.blocks[x].level).(blocks := SetFree(s.blocks, x, true)), {})
  {
    hide Pow2, Tiling, Coalesced, Linked, HeadIdx;
    assert AgreeAt(s.heap, s.blocks, s.home, x);
    PushFacts(s, id, x, s.blocks[x].level);
    SetFreeTiling(s.blocks, s.top, x, true);
    FreeCoalesced(s.blocks, s.top, x);
  }

  /** Take one more largest block from the end of the heap. */
  lemma ExtendStep(s: State)
    requires Sound(s, {})
    ensures CanPush(s, Large(UP), s.top)
    ensures Sound(PushState(s, Large(UP), s.top, UP).(blocks := Extend(s.blocks, s.top), top := s.top + Pow2(UP)), {})
  {
    hide Pow2, Tiling, Coalesced, Linked, HeadIdx;
    ExtendTiling(s.blocks, s.top);
    TopIsNoHead(s);
    PushFacts(s, Large(UP), s.top, UP);
  }

  lemma TopIsNoHead(s: State)
    requires Tiling(s.blocks, s.top) && HeadsOk(s)
    ensures forall i :: i in s.lists ==> HeadIdx(i) != s.top
  {
    hide Pow2, HeadIdx;
    if s.top > 0 {
      AlignedFromZero(s.top, UP);
      Pow2Mono(DIV, UP);
    }
  }

  ghost function JoinState(s: State, x: nat): State
    requires Linked(s.heap, s.lists, s.home) && x in s.blocks && Buddy(x, s.blocks[x].level) in s.home
    requires x in s.heap
  {
    var l := s.blocks[x].level;
    var u := UnlinkState(s, Buddy(x, l), l);
    UnlinkFacts(s, Buddy(x, l), l);
    var p := Parent(x, l);
    u.(heap := u.heap[p := u.heap[p].(level := l + 1)], blocks := Join(s.blocks, x))
  }

  /** Coalesce the block x, which is in use, with its free buddy. */
  lemma JoinStep(s: State, x: nat)
    requires Sound(s, {}) && x in s.blocks && !s.blocks[x].free && s.blocks[x].level < UP
    requires IsFree(s.blocks, Buddy(x, s.blocks[x].level), s.blocks[x].level)
    ensures x in s.heap && Buddy(x, s.blocks[x].level) in s.home
    ensures Sound(JoinState(s, x), {})
  {
    hide Pow2, Tiling, Coalesced, Linked, HeadIdx, Buddy;
    var l := s.blocks[x].level;
    var q := Buddy(x, l);
    assert AgreeAt(s.heap, s.blocks, s.home, x) && AgreeAt(s.heap, s.blocks, s.home, q);
    JoinTiling(s.blocks, s.top, x);
    JoinCoalesced(s.blocks, x);
    UnlinkFacts(s, q, l);
    var u := UnlinkState(s, q, l);
    LevelOnly(u.heap, u.lists, u.home, Parent(x, l), l + 1);
    BuddyOf(s.blocks, s.top, x);
  }

  lemma BuddyOf(b: Blocks, top: nat, x: nat)
    requires Tiling(b, top) && x in b
    ensures Buddy(x, b[x].level) != x
    ensures Parent(x, b[x].level) == x || Parent(x, b[x].level) == Buddy(x, b[x].level)
  {
    BlocksApart(b, top, x, x);
    BuddyFacts(x, b[x].level);
  }

  /** The links do not depend on the level fields. */
  lemma LevelOnly(h: Heap, lists: Lists, home: map<nat, ListId>, a: nat, level: nat)
    requires Linked(h, lists, home) && a in h
    ensures Linked(h[a := h[a].(level := level)], lists, home)
  {
    var h' := h[a := h[a].(level := level)];
    forall id | id in lists
      ensures OneList(h', lists, home, id)
    {
      assert OneList(h, lists, home, id);
      forall k | 0 <= k < |lists[id]|
        ensures NodeOk(h', HeadIdx(id), lists[id], k)
      {
        assert NodeOk(h, HeadIdx(id), lists[id], k);
      }
    }
  }

  /** A new empty list. */
  lemma AddListLinked(h: Heap, lists: Lists, home: map<nat, ListId>, id: ListId, hd: Header)
    requires Linked(h, lists, home) && ValidId(id) && id !in lists && HeadIdx(id) !in home
    requires hd.next == HeadIdx(id)
    ensures Linked(h[HeadIdx(id) := hd], lists[id := []], home)
  {
    var h', lists' := h[HeadIdx(id) := hd], lists[id := []];
    forall i | i in lists'
      ensures OneList(h', lists', home, i)
    {
      if i != id {
        assert OneList(h, lists, home, i);
        if HeadIdx(i) == HeadIdx(id) { HeadIdxInjective(i, id); }
        forall k | 0 <= k < |lists[i]|
          ensures NodeOk(h', HeadIdx(i), lists[i], k)
        {
          assert NodeOk(h, HeadIdx(i), lists[i], k);
        }
      }
    }
    forall n | n in home
      ensures AtHome(lists', home, n)
    {
      assert AtHome(lists, home, n);
    }
  }

  lemma AddListSound(s: State, id: ListId, hd: Header)
    requires Sound(s, {}) && ValidId(id) && id !in s.lists && 0 < HeadIdx(id) < Pow2(DIV) && HeadIdx(id) !in s.blocks
    requires hd.next == HeadIdx(id)
    ensures Sound(s.(heap := s.heap[HeadIdx(id) := hd], lists := s.lists[id := []]), {})
  {
    hide Pow2, Tiling, Coalesced, Linked, HeadIdx;
    AddListLinked(s.heap, s.lists, s.home, id, hd);
    var s' := s.(heap := s.heap[HeadIdx(id) := hd], lists := s.lists[id := []]);
    forall x | x in s'.blocks
      ensures AgreeAt(s'.heap, s'.blocks, s'.home, x)
    {
      assert AgreeAt(s.heap, s.blocks, s.home, x);
    }
  }

  /** The first node of a list, or its head when the list is empty. */
  lemma ListHead(s: State, id: ListId, except: set<nat>)
    requires Sound(s, except) && id in s.lists
    ensures HeadIdx(id) in s.heap
    ensures s.heap[HeadIdx(id)].next == HeadIdx(id) <==> s.lists[id] == []
    ensures s.lists[id] != [] ==>
      s.heap[HeadIdx(id)].next == s.lists[id][0] && s.lists[id][0] in s.home && s.home[s.lists[id][0]] == id
  {
    hide Pow2, Tiling, Coalesced, HeadIdx;
    assert OneList(s.heap, s.lists, s.home, id);
  }

  /** A listed block is free and of the level of its list; so between calls the small lists
      of level DIV are empty. */
  lemma ListedIsFree(s: State, x: nat)
    requires Sound(s, {}) && x in s.home
    ensures x in s.blocks && s.blocks[x].free && HomeOk(s.home[x], s.blocks[x].level)
  {
    hide Pow2, Tiling, Coalesced, Linked, HeadIdx;
    assert AgreeAt(s.heap, s.blocks, s.home, x);
  }

  /** There is a list for each small level and loading thread. */
  ghost predicate ThreadLists(lists: Lists, n: nat) {
    forall l: nat, j: nat :: Tmp(l, j) in lists <==> LOW <= l <= DIV && j < n
  }

  /** The lists that thread t changes when it needs a block of some level. */
  predicate Touched(t: Thread, need: nat, id: ListId) { id.Large? || (need < DIV && id == SmallList(t, id.level)) }

  /** All other lists are as before. */
  ghost predicate KeptBut(t: Thread, need: nat, a: Lists, b: Lists) {
    forall id: ListId :: id in a && !Touched(t, need, id) ==> id in b && b[id] == a[id]
  }

  /** Only thread lists have been added. */
  ghost predicate OthersKept(a: Lists, b: Lists) {
    forall id: ListId :: !id.Tmp? ==> (id in b <==> id in a) && (id in a ==> b[id] == a[id])
  }

  /** A thread's small lists from the level on are empty. */
  ghost predicate NoneFrom(lists: Lists, t: Thread, level: nat) {
    forall l: nat :: level <= l < DIV && SmallList(t, l) in lists ==> lists[SmallList(t, l)] == []
  }

  /** When a thread has no small block that is large enough, it splits one and keeps the rest. */
  ghost predicate Fills(size: nat, t: Thread, a: Lists, b: Lists) {
    forall level: nat :: IsLevelFor(size, level) && level < DIV && SmallList(t, level) in b && NoneFrom(a, t, level) ==>
      b[SmallList(t, level)] != []
  }

  lemma FillsOne(size: nat, t: Thread, need: nat, a: Lists, b: Lists)
    requires IsLevelFor(size, need) && SmallList(t, need) in b && (NoneFrom(a, t, need) ==> b[SmallList(t, need)] != [])
    ensures Fills(size, t, a, b)
  {
    hide IsLevelFor;
    forall level | IsLevelFor(size, level)
      ensures level == need
    {
      LevelForIsUnique(size, level, need);
    }
  }

  lemma OneLevel(size: nat, need: nat)
    requires IsLevelFor(size, need)
    ensures forall level: nat :: IsLevelFor(size, level) ==> level == need
  {
    hide IsLevelFor;
    forall level: nat | IsLevelFor(size, level)
      ensures level == need
    {
      LevelForIsUnique(size, level, need);
    }
  }

  /** The same in terms of the size asked for. */
  ghost predicate ServesSize(a: Lists, top: nat, heapSize: nat, t: Thread, size: nat, r: Result, top': nat) {
    forall need: nat :: IsLevelFor(size, need) ==> Serves(a, top, heapSize, t, need, r, top')
  }

  ghost predicate NoFitFor(a: Lists, t: Thread, size: nat) {
    forall need: nat :: IsLevelFor(size, need) ==> NoFit(a, t, need)
  }

  lemma ServedSize(a: Lists, top: nat, heapSize: nat, t: Thread, size: nat, need: nat, r: Result, top': nat)
    requires IsLevelFor(size, need) && Serves(a, top, heapSize, t, need, r, top')
    ensures ServesSize(a, top, heapSize, t, size, r, top')
    ensures r == OutOfMemory <==> NoFitFor(a, t, size) && top + Pow2(UP) > heapSize
    ensures top' != top <==> NoFitFor(a, t, size) && top + Pow2(UP) <= heapSize
  {
    hide Serves, IsLevelFor, Pow2, NoFit;
    OneLevel(size, need);
    FailsIff(a, top, heapSize, t, need, r, top');
  }

  lemma FillsNone(size: nat, t: Thread, need: nat, a: Lists, b: Lists)
    requires IsLevelFor(size, need) && need >= DIV
    ensures Fills(size, t, a, b)
  {
    hide IsLevelFor;
    forall level | IsLevelFor(size, level)
      ensures level == need
    {
      LevelForIsUnique(size, level, need);
    }
  }

  /** Level l is the least from `need` on at which the thread finds a free block. */
  ghost predicate FirstFit(a: Lists, t: Thread, need: nat, l: nat) {
    && need <= l <= UP && ListFor(t, l) in a && a[ListFor(t, l)] != []
    && forall m: nat :: need <= m < l && ListFor(t, m) in a ==> a[ListFor(t, m)] == []
  }

  /** The thread finds none. */
  ghost predicate NoFit(a: Lists, t: Thread, need: nat) {
    forall l: nat :: need <= l <= UP && ListFor(t, l) in a ==> a[ListFor(t, l)] == []
  }

  /** A request is served from the first block of the least level that has one; only if there is
      none the heap grows, and only if it cannot the request fails. */
  ghost predicate Serves(a: Lists, top: nat, heapSize: nat, t: Thread, need: nat, r: Result, top': nat) {
    && (forall l: nat :: FirstFit(a, t, need, l) ==> r == Ok(a[ListFor(t, l)][0] + HEADER) && top' == top)
    && (NoFit(a, t, need) ==>
        if top + Pow2(UP) <= heapSize then r == Ok(top + HEADER) && top' == top + Pow2(UP)
        else r == OutOfMemory && top' == top)
  }

  lemma FitServes(a: Lists, top: nat, heapSize: nat, t: Thread, need: nat, l: nat)
    requires FirstFit(a, t, need, l)
    ensures Serves(a, top, heapSize, t, need, Ok(a[ListFor(t, l)][0] + HEADER), top)
  {
    hide Pow2;
    forall m: nat | FirstFit(a, t, need, m)
      ensures m == l
    {
    }
  }

  lemma NoFitServes(a: Lists, top: nat, heapSize: nat, t: Thread, need: nat)
    requires NoFit(a, t, need)
    ensures top + Pow2(UP) <= heapSize ==> Serves(a, top, heapSize, t, need, Ok(top + HEADER), top + Pow2(UP))
    ensures top + Pow2(UP) > heapSize ==> Serves(a, top, heapSize, t, need, OutOfMemory, top)
  {
    hide Pow2;
  }

  /** All threads use the same large lists. */
  lemma LargeFit(a: Lists, t: Thread, need: nat, l: nat)
    requires need <= DIV && NoneFrom(a, t, need) && FirstFit(a, t, need, l)
    ensures l >= DIV && ListFor(t, l) == ListFor(Shared, l) && FirstFit(a, Shared, DIV, l)
  {
    assert l < DIV ==> ListFor(t, l) == SmallList(t, l);
    assert forall m: nat :: m >= DIV ==> ListFor(t, m) == ListFor(Shared, m);
  }

  lemma LargeNoFit(a: Lists, t: Thread, need: nat)
    requires need <= DIV && NoFit(a, t, need)
    ensures NoFit(a, Shared, DIV)
  {
    assert forall m: nat :: m >= DIV ==> ListFor(t, m) == ListFor(Shared, m);
  }

  /** Without a small block of its own the thread is served as a request for level DIV is. */
  lemma LargeServes(a: Lists, top: nat, heapSize: nat, t: Thread, need: nat, r: Result, top': nat)
    requires Serves(a, top, heapSize, Shared, DIV, r, top') && need <= DIV && NoneFrom(a, t, need)
    ensures Serves(a, top, heapSize, t, need, r, top')
  {
    hide Pow2, FirstFit, NoFit, NoneFrom, ListFor;
    forall l: nat | FirstFit(a, t, need, l)
      ensures ListFor(t, l) in a && a[ListFor(t, l)] != [] && r == Ok(a[ListFor(t, l)][0] + HEADER) && top' == top
    {
      LargeFit(a, t, need, l);
      FitBlock(a, Shared, DIV, l);
    }
    if NoFit(a, t, need) { LargeNoFit(a, t, need); }
  }

  lemma FitBlock(a: Lists, t: Thread, need: nat, l: nat)
    requires FirstFit(a, t, need, l)
    ensures ListFor(t, l) in a && a[ListFor(t, l)] != []
  {
  }

  lemma SameServes(a: Lists, top: nat, heapSize: nat, t: Thread, need: nat, r: Result, top': nat)
    requires Serves(a, top, heapSize, Shared, need, r, top') && need >= DIV
    ensures Serves(a, top, heapSize, t, need, r, top')
  {
    hide Pow2;
    assert forall l: nat :: l >= DIV ==> ListFor(t, l) == ListFor(Shared, l);
    assert forall l: nat :: FirstFit(a, t, need, l) ==> FirstFit(a, Shared, need, l);
    assert NoFit(a, t, need) ==> NoFit(a, Shared, need);
  }

  /** A request fails exactly if no list it may use has a block and the heap cannot grow; the heap
      grows exactly if no list has one and it can. */
  lemma FailsIff(a: Lists, top: nat, heapSize: nat, t: Thread, need: nat, r: Result, top': nat)
    requires Serves(a, top, heapSize, t, need, r, top')
    ensures r == OutOfMemory <==> NoFit(a, t, need) && top + Pow2(UP) > heapSize
    ensures top' != top <==> NoFit(a, t, need) && top + Pow2(UP) <= heapSize
  {
    hide Pow2;
    if !NoFit(a, t, need) {
      var l := SomeFit(a, t, need, need);
    }
  }

  lemma {:induction false} SomeFit(a: Lists, t: Thread, need: nat, from: nat) returns (l: nat)
    requires need <= from && !NoFit(a, t, from)
    requires forall m: nat :: need <= m < from && ListFor(t, m) in a ==> a[ListFor(t, m)] == []
    ensures FirstFit(a, t, need, l)
    decreases UP + 1 - from
  {
    if from <= UP && ListFor(t, from) in a && a[ListFor(t, from)] != [] {
      l := from;
    } else {
      l := SomeFit(a, t, need, from + 1);
    }
  }

  lemma KeptTrans(t: Thread, need: nat, a: Lists, b: Lists, c: Lists)
    requires KeptBut(t, need, a, b) && KeptBut(t, need, b, c)
    ensures KeptBut(t, need, a, c)
  {
  }

  lemma KeptSame(t: Thread, need: nat, a: Lists)
    ensures KeptBut(t, need, a, a)
  {
  }

  /** For a higher level, or a large block, less is touched. */
  lemma KeptLess(t: Thread, need: nat, t': Thread, need': nat, a: Lists, b: Lists)
    requires KeptBut(t, need, a, b) && (need >= DIV || (t == t' && need' <= need))
    ensures KeptBut(t', need', a, b)
  {
  }

  lemma PushKept(t: Thread, need: nat, s: State, id: ListId, n: nat, level: nat)
    requires CanPush(s, id, n)
    ensures Touched(t, need, id) ==> KeptBut(t, need, s.lists, PushState(s, id, n, level).lists)
  {
    hide HeadIdx, Linked;
  }

  lemma UnlinkKept(t: Thread, need: nat, s: State, n: nat, level: nat)
    requires Linked(s.heap, s.lists, s.home) && n in s.home
    ensures Touched(t, need, s.home[n]) ==> KeptBut(t, need, s.lists, UnlinkState(s, n, level).lists)
    ensures forall id :: id in s.lists && id != s.home[n] ==> UnlinkState(s, n, level).lists[id] == s.lists[id]
  {
    hide HeadIdx, Linked;
  }

  class Allocator {
    var heap: Heap
    var top: nat
    const heapSize: nat
    const threads: nat
    ghost var st: State

    ghost predicate Consistent(except: set<nat>)
      reads this
    {
      Sound(st, except) && st.heap == heap && st.top == top && top <= heapSize
    }

    /** What holds between calls: the invariant, and the list heads' block reserved. */
    ghost predicate Valid()
      reads this
    {
      Consistent({}) && 0 in st.blocks && st.blocks[0] == Block(DIV, false)
    }

    /** Set up the list heads inside the first block and reserve that block; `n` is the
        number of loading threads, whose list heads must fit too. */
    constructor (size: nat, n: nat)
      requires Pow2(UP) <= size
      requires (UP - LOW + 10 + n * (DIV - LOW + 1)) * HEADER <= Pow2(DIV)
      ensures Valid() && Live(st.blocks) == map[0 := DIV] && top == Pow2(UP)
      ensures threads == n && heapSize == size && ThreadLists(st.lists, n)
      ensures forall id :: id in st.lists && !id.Large? ==> st.lists[id] == []
    {
      hide Pow2, Sound, HeadIdx;
      heap := map[];
      top := 0;
      heapSize := size;
      threads := n;
      st := State(map[], 0, map[], map[], map[]);
      new;
      InitHeads();
      assert forall l :: DIV <= l <= UP ==> Large(l) in st.lists by { LargeLists(st); }
      ghost var heads := st.lists;
      var r := LargeMalloc(DIV);
      LiveLevel(st.blocks, 0, DIV);
      assert forall id :: id in st.lists && !id.Large? ==> id in heads && st.lists[id] == heads[id];
      InitThreadHeads();
    }

    method InitHeads()
      requires heap == map[] && top == 0 && st == State(map[], 0, map[], map[], map[])
      requires (UP - LOW + 10) * HEADER <= Pow2(DIV)
      modifies this`heap, this`st
      ensures Consistent({}) && Live(st.blocks) == map[] && forall id :: id in st.lists ==> st.lists[id] == [] && !id.Tmp?
    {
      hide Pow2, Linked;
      EmptyHeap(map[], map[]);
      for i := LOW to DIV + 1
        invariant st == State(heap, 0, map[], st.lists, map[]) && Linked(heap, st.lists, map[])
        invariant forall id :: id in st.lists <==> id.Small? && LOW <= id.level < i
        invariant forall id :: id in st.lists ==> st.lists[id] == []
      {
        var idx := (i - LOW + 1) * HEADER;
        AddListLinked(heap, st.lists, map[], Small(i), Header(false, 0, idx, idx));
        heap := heap[idx := Header(false, 0, idx, idx)];
        st := st.(heap := heap, lists := st.lists[Small(i) := []]);
      }
      for i := DIV to UP + 1
        invariant st == State(heap, 0, map[], st.lists, map[]) && Linked(heap, st.lists, map[])
        invariant forall id :: id in st.lists <==>
          (id.Small? && LOW <= id.level <= DIV) || (id.Large? && DIV <= id.level < i)
        invariant forall id :: id in st.lists ==> st.lists[id] == []
      {
        var idx := (i - LOW + 2) * HEADER;
        AddListLinked(heap, st.lists, map[], Large(i), Header(false, 0, idx, idx));
        heap := heap[idx := Header(false, 0, idx, idx)];
        st := st.(heap := heap, lists := st.lists[Large(i) := []]);
      }
      EmptyHeap(heap, st.lists);
    }

    method InitThreadHeads()
      requires Valid() && forall id :: id in st.lists ==> !id.Tmp?
      requires (UP - LOW + 10 + threads * (DIV - LOW + 1)) * HEADER <= Pow2(DIV)
      modifies this`heap, this`st
      ensures Valid() && st.blocks == old(st.blocks) && st.top == old(st.top) && ThreadLists(st.lists, threads)
      ensures OthersKept(old(st.lists), st.lists) && forall id :: id in st.lists && id.Tmp? ==> st.lists[id] == []
    {
      hide Pow2, Sound, HeadIdx;
      var idx := (UP - LOW + 10) * HEADER;
      for j := 0 to threads
        invariant Valid() && st.blocks == old(st.blocks) && st.top == old(st.top)
        invariant idx == (UP - LOW + 10 + j * (DIV - LOW + 1)) * HEADER
        invariant forall l, k :: LOW <= l <= DIV && 0 <= k < j ==> Tmp(l, k) in st.lists
        invariant forall id :: id in st.lists && id.Tmp? ==> id.tid < j && LOW <= id.level <= DIV && st.lists[id] == []
        invariant OthersKept(old(st.lists), st.lists)
      {
        for i := LOW to DIV + 1
          invariant Valid() && st.blocks == old(st.blocks) && st.top == old(st.top)
          invariant idx == (UP - LOW + 10 + j * (DIV - LOW + 1) + (i - LOW)) * HEADER
          invariant forall l, k :: LOW <= l <= DIV && 0 <= k < j ==> Tmp(l, k) in st.lists
          invariant forall l :: LOW <= l < i ==> Tmp(l, j) in st.lists
          invariant forall id :: id in st.lists && id.Tmp? ==>
            LOW <= id.level <= DIV && (id.tid < j || (id.tid == j && id.level < i)) && st.lists[id] == []
          invariant OthersKept(old(st.lists), st.lists)
        {
          ThreadHead(i, j, threads, idx);
          StartsNotReserved(st, idx);
          AddListSound(st, Tmp(i, j), Header(false, 0, idx, idx));
          heap := heap[idx := Header(false, 0, idx, idx)];
          st := st.(heap := heap, lists := st.lists[Tmp(i, j) := []]);
          idx := idx + HEADER;
        }
      }
    }

    method MarkFree(id: ListId, n: nat, level: nat)
      requires CanPush(st, id, n) && st.heap == heap
      modifies this`heap, this`st
      ensures st == PushState(old(st), id, n, level) && st.heap == heap
    {
      PushLinked(st.heap, st.lists, st.home, id, n, level);
      st := PushState(st, id, n, level);
      var head := HeadIdx(id);
      var first := heap[head].next;
      heap := heap[n := Header(false, level, head, first)];
      heap := heap[head := heap[head].(next := n)];
      heap := heap[first := heap[first].(prev := n)];
    }

    method MarkUsed(n: nat, level: nat)
      requires Linked(st.heap, st.lists, st.home) && n in st.home && st.heap == heap
      modifies this`heap, this`st
      ensures st == UnlinkState(old(st), n, level) && st.heap == heap
    {
      UnlinkLinked(st.heap, st.lists, st.home, n, level);
      st := UnlinkState(st, n, level);
      heap := heap[n := heap[n].(inUse := true, level := level)];
      var prev, next := heap[n].prev, heap[n].next;
      heap := heap[prev := heap[prev].(next := next)];
      heap := heap[next := heap[next].(prev := prev)];
    }

    /** Split the block x down from its level to the one needed, listing the right halves,
        then take it off its list. */
    method SplitAndTake(t: Thread, x: nat, have: nat, need: nat)
      requires Consistent({x}) && x in st.blocks && st.blocks[x] == Block(have, false) && x in st.home
      requires LOW <= need <= have
      requires forall l :: need <= l < have ==> ListFor(t, l) in st.lists
      requires need >= DIV || x >= Pow2(DIV)
      modifies this`heap, this`st
      ensures Consistent({}) && st.top == old(st.top) && st.lists.Keys == old(st.lists.Keys)
      ensures Live(st.blocks) == old(Live(st.blocks))[x := need]
      ensures old(Touched(t, need, st.home[x])) ==> KeptBut(t, need, old(st.lists), st.lists)
      ensures need < have && old(st.home[x]) != ListFor(t, need) ==> st.lists[ListFor(t, need)] != []
    {
      hide Pow2, Sound, Linked, KeptBut;
      KeptSame(t, need, st.lists);
      assert Live(st.blocks)[x := have] == Live(st.blocks) by { LiveSetFree(st.blocks, x, false); }
      var i := have;
      while i > need
        invariant need <= i <= have
        invariant Consistent({x}) && x in st.blocks && st.blocks[x] == Block(i, false) && x in st.home
        invariant st.top == old(st.top) && st.lists.Keys == old(st.lists.Keys)
        invariant Live(st.blocks) == old(Live(st.blocks))[x := i]
        invariant st.home[x] == old(st.home[x]) && KeptBut(t, need, old(st.lists), st.lists)
        invariant i < have ==> st.lists[ListFor(t, i)] != []
        modifies this`heap, this`st
      {
        i := i - 1;
        RightHalf(x, i, need);
        ghost var before := st.lists;
        SplitInto(t, x, i);
        KeptLess(t, i, t, need, before, st.lists);
        KeptTrans(t, need, old(st.lists), before, st.lists);
      }
      TakeStep(st, x);
      UnlinkHome(st, x);
      UnlinkKept(t, need, st, x, need);
      if Touched(t, need, st.home[x]) { KeptTrans(t, need, old(st.lists), st.lists, UnlinkState(st, x, need).lists); }
      MarkUsed(x, need);
    }

    method SplitInto(t: Thread, x: nat, l: nat)
      requires Consistent({x}) && x in st.blocks && st.blocks[x] == Block(l + 1, false) && x in st.home
      requires LOW <= l && ListFor(t, l) in st.lists && x + Pow2(l) >= Pow2(DIV)
      modifies this`heap, this`st
      ensures Consistent({x}) && x in st.blocks && st.blocks[x] == Block(l, false) && x in st.home
      ensures st.top == old(st.top) && st.lists.Keys == old(st.lists.Keys)
      ensures Live(st.blocks) == old(Live(st.blocks))[x := l]
      ensures st.home[x] == old(st.home[x]) && KeptBut(t, l, old(st.lists), st.lists)
      ensures st.lists[ListFor(t, l)] != []
    {
      hide Pow2, Linked, Tiling, Coalesced, HeadIdx, Agree, HeadsOk, KeptBut;
      SplitStep(st, x, ListFor(t, l));
      PushKept(t, l, st, ListFor(t, l), x + Pow2(l), l);
      SplitTiling(st.blocks, st.top, x);
      LiveSplit(st.blocks, x);
      ghost var b := Split(st.blocks, x);
      MarkFree(ListFor(t, l), x + Pow2(l), l);
      st := st.(blocks := b);
    }

    /** Extend the heap by one largest block and list it. */
    method LargeSbrk() returns (ok: bool)
      requires Consistent({})
      modifies this`heap, this`top, this`st
      ensures Consistent({}) && Live(st.blocks) == old(Live(st.blocks)) && st.lists.Keys == old(st.lists.Keys)
      ensures ok <==> old(top) + Pow2(UP) <= heapSize
      ensures ok ==> st.lists[Large(UP)] == [old(top)] + old(st.lists[Large(UP)]) && top == old(top) + Pow2(UP)
      ensures !ok ==> st == old(st)
      ensures KeptBut(Shared, DIV, old(st.lists), st.lists)
    {
      hide Pow2, Linked, Tiling, Coalesced, HeadIdx, Agree, KeptBut;
      KeptSame(Shared, DIV, st.lists);
      ok := top + Pow2(UP) <= heapSize;
      if ok {
        ExtendStep(st);
        ExtendTiling(st.blocks, st.top);
        LiveExtend(st.blocks, st.top);
        PushKept(Shared, DIV, st, Large(UP), top, UP);
        ghost var b := Extend(st.blocks, st.top);
        MarkFree(Large(UP), top, UP);
        top := top + Pow2(UP);
        st := st.(blocks := b, top := top);
      }
    }

    /** The first non-empty list from level `from` up to `limit`, or `limit` itself. */
    method FirstNonEmpty(t: Thread, large: bool, from: nat, limit: nat) returns (level: nat)
      requires Consistent({}) && from <= limit
      requires forall l :: from <= l <= limit ==> (if large then Large(l) else SmallList(t, l)) in st.lists
      ensures from <= level <= limit
      ensures level < limit ==> st.lists[if large then Large(level) else SmallList(t, level)] != []
      ensures forall l :: from <= l < level ==> st.lists[if large then Large(l) else SmallList(t, l)] == []
    {
      hide Pow2, Sound, HeadIdx;
      level := from;
      while level < limit
        invariant from <= level <= limit
        invariant forall l :: from <= l < level ==> st.lists[if large then Large(l) else SmallList(t, l)] == []
      {
        var id := if large then Large(level) else SmallList(t, level);
        ListHead(st, id, {});
        if heap[HeadIdx(id)].next != HeadIdx(id) { return; }
        level := level + 1;
      }
    }

    /** Decide to use the first block of a list. */
    method ClaimFirst(id: ListId) returns (x: nat)
      requires Consistent({}) && id in st.lists && st.lists[id] != []
      modifies this`st
      ensures Consistent({x}) && st == old(st).(blocks := st.blocks)
      ensures x == old(st.lists[id][0]) && x in st.blocks && st.blocks[x] == Block(id.level, false) && x in st.home && st.home[x] == id
      ensures x !in old(Live(st.blocks)) && Live(st.blocks) == old(Live(st.blocks))[x := id.level]
    {
      hide Pow2, Linked, Tiling, Coalesced, HeadIdx, Agree, HeadsOk;
      ListHead(st, id, {});
      x := heap[HeadIdx(id)].next;
      ListedIsFree(st, x);
      UseStep(st, x);
      FreeNotLive(st.blocks, x);
      LiveSetFree(st.blocks, x, false);
      st := st.(blocks := SetFree(st.blocks, x, false));
    }

    method LargeMalloc(need: nat) returns (r: Result)
      requires Consistent({}) && DIV <= need <= UP
      modifies this`heap, this`top, this`st
      ensures Consistent({}) && st.lists.Keys == old(st.lists.Keys)
      ensures r.Ok? ==> r.idx >= HEADER && r.idx - HEADER !in old(Live(st.blocks))
      ensures r.Ok? ==> Live(st.blocks) == old(Live(st.blocks))[r.idx - HEADER := need]
      ensures !r.Ok? ==> r == OutOfMemory && st == old(st) && top + Pow2(UP) > heapSize
      ensures !r.Ok? ==> forall l :: need <= l <= UP ==> st.lists[Large(l)] == []
      ensures r.Ok? && old(forall l :: need <= l <= UP ==> st.lists[Large(l)] == []) ==>
        r.idx - HEADER == old(top) && top == old(top) + Pow2(UP)
      ensures top <= old(top) + Pow2(UP) && Serves(old(st.lists), old(top), heapSize, Shared, need, r, top)
      ensures KeptBut(Shared, DIV, old(st.lists), st.lists)
    {
      hide Pow2, Linked, Tiling, Coalesced, HeadIdx, Agree, CanPush, KeptBut, Live, Serves;
      KeptSame(Shared, DIV, st.lists);
      var level := FirstNonEmpty(Shared, true, need, UP);
      ListHead(st, Large(UP), {});
      if level == UP && heap[HeadIdx(Large(UP))].next == HeadIdx(Large(UP)) {
        NoFitServes(st.lists, top, heapSize, Shared, need);
        var ok := LargeSbrk();
        if !ok { return OutOfMemory; }
      } else {
        FitServes(st.lists, top, heapSize, Shared, need, level);
      }
      var x := ClaimFirst(Large(level));
      ghost var before := st.lists;
      SplitAndTake(Shared, x, level, need);
      PutTwice(old(Live(st.blocks)), x, level, need);
      KeptLess(Shared, need, Shared, DIV, before, st.lists);
      KeptTrans(Shared, DIV, old(st.lists), before, st.lists);
      r := Ok(x + HEADER);
    }

    method SmallMalloc(t: Thread, need: nat) returns (r: Result)
      requires Valid() && LOW <= need < DIV
      requires forall l :: LOW <= l <= DIV ==> SmallList(t, l) in st.lists
      modifies this`heap, this`top, this`st
      ensures Valid() && st.lists.Keys == old(st.lists.Keys)
      ensures r.Ok? ==> r.idx >= HEADER && r.idx - HEADER !in old(Live(st.blocks))
      ensures r.Ok? ==> Live(st.blocks) == old(Live(st.blocks))[r.idx - HEADER := need]
      ensures !r.Ok? ==> r == OutOfMemory && st == old(st) && top + Pow2(UP) > heapSize
      ensures !r.Ok? ==> forall l :: need <= l < DIV ==> st.lists[SmallList(t, l)] == []
      ensures !r.Ok? ==> forall l :: DIV <= l <= UP ==> st.lists[Large(l)] == []
      ensures top <= old(top) + Pow2(UP) && KeptBut(t, need, old(st.lists), st.lists)
      ensures r.Ok? && old(NoneFrom(st.lists, t, need)) ==> st.lists[SmallList(t, need)] != []
      ensures Serves(old(st.lists), old(top), heapSize, t, need, r, top)
    {
      hide Pow2, Linked, Tiling, Coalesced, HeadIdx, Agree, CanPush, KeptBut, Serves;
      KeptSame(t, need, st.lists);
      var ok, x, level := ClaimSmall(t, need);
      if !ok { return OutOfMemory; }
      ghost var before := st.lists;
      SplitAndTake(t, x, level, need);
      PutTwice(old(Live(st.blocks)), x, level, need);
      KeptTrans(t, need, old(st.lists), before, st.lists);
      ReservedStays(old(st.blocks), st.blocks, x, need);
      r := Ok(x + HEADER);
    }

    /** A small block of the thread, or a large one split off for it. */
    method ClaimSmall(t: Thread, need: nat) returns (ok: bool, x: nat, level: nat)
      requires Valid() && LOW <= need < DIV
      requires forall l :: LOW <= l <= DIV ==> SmallList(t, l) in st.lists
      modifies this`heap, this`top, this`st
      ensures st.lists.Keys == old(st.lists.Keys) && top <= old(top) + Pow2(UP)
      ensures !ok ==> Valid() && st == old(st) && top + Pow2(UP) > heapSize
      ensures !ok ==> NoneFrom(st.lists, t, need) && forall l :: DIV <= l <= UP ==> st.lists[Large(l)] == []
      ensures ok ==> Consistent({x}) && need <= level <= DIV && x in st.blocks && st.blocks[x] == Block(level, false)
      ensures ok ==> x in st.home && st.home[x] == SmallList(t, level) && x >= Pow2(DIV)
      ensures ok ==> x !in old(Live(st.blocks)) && Live(st.blocks) == old(Live(st.blocks))[x := level]
      ensures ok ==> KeptBut(t, need, old(st.lists), st.lists) && (old(NoneFrom(st.lists, t, need)) ==> level == DIV)
      ensures Serves(old(st.lists), old(top), heapSize, t, need, if ok then Ok(x + HEADER) else OutOfMemory, top)
    {
      hide Pow2, Linked, Tiling, Coalesced, HeadIdx, Agree, CanPush, KeptBut, HeadsOk, Serves;
      KeptSame(t, need, st.lists);
      level := FirstNonEmpty(t, false, need, DIV);
      if level == DIV {
        var big := LargeMalloc(DIV);
        LargeServes(old(st.lists), old(top), heapSize, t, need, big, top);
        if !big.Ok? { return false, 0, level; }
        x := big.idx - HEADER;
        ghost var before := st.lists;
        KeptLess(Shared, DIV, t, need, old(st.lists), before);
        LendToSmall(t, need, x);
        KeptTrans(t, need, old(st.lists), before, st.lists);
      } else {
        FitServes(st.lists, top, heapSize, t, need, level);
        x := ClaimFirst(SmallList(t, level));
      }
      ok := true;
      ReservedKept(old(st.blocks), st.blocks, st.top, x);
    }

    /** List a block of level DIV from the large side on the small side. */
    method LendToSmall(t: Thread, ghost need: nat, x: nat)
      requires need < DIV && Consistent({}) && x in Live(st.blocks) && Live(st.blocks)[x] == DIV && SmallList(t, DIV) in st.lists
      modifies this`heap, this`st
      ensures Consistent({x}) && st.blocks == old(st.blocks) && x in st.blocks && st.blocks[x] == Block(DIV, false)
      ensures x in st.home && st.home[x] == SmallList(t, DIV) && st.lists.Keys == old(st.lists.Keys)
      ensures KeptBut(t, need, old(st.lists), st.lists)
    {
      hide Pow2, Linked, Tiling, Coalesced, HeadIdx, Agree, CanPush, KeptBut;
      LiveLevel(st.blocks, x, DIV);
      BorrowStep(st, x, SmallList(t, DIV));
      BorrowHome(st, x, SmallList(t, DIV));
      PushKept(t, need, st, SmallList(t, DIV), x, DIV);
      MarkFree(SmallList(t, DIV), x, DIV);
    }

    /** Is the buddy of the block at x free and of the same level?  Reads the buddy's header. */
    method FreeBuddy(x: nat, level: nat) returns (found: bool)
      requires Consistent({}) && x in st.blocks && st.blocks[x].level == level < UP
      ensures found <==> IsFree(st.blocks, Buddy(x, level), level)
    {
      hide Pow2, Linked, Coalesced, HeadIdx, Buddy;
      BuddyIsABlock(st.blocks, st.top, x);
      ghost var q := Buddy(x, level);
      assert AgreeAt(st.heap, st.blocks, st.home, q);
      var h := heap[Buddy(x, level)];
      found := h.level == level && !h.inUse;
    }

    /** Merge the block at x, which is in use, with free buddies up to the given level. */
    method CoalesceUp(x0: nat, limit: nat) returns (x: nat, level: nat)
      requires Valid() && x0 != 0 && x0 in st.blocks && !st.blocks[x0].free && st.blocks[x0].level <= limit <= UP
      modifies this`heap, this`st
      ensures Valid() && x != 0 && x in st.blocks && st.blocks[x] == Block(level, false)
      ensures old(st.blocks[x0].level) <= level <= limit
      ensures level == limit || !IsFree(st.blocks, Buddy(x, level), level)
      ensures Live(st.blocks) - {x} == old(Live(st.blocks)) - {x0}
      ensures st.top == old(st.top) && st.lists.Keys == old(st.lists.Keys) && NoneLent(old(st.home), st.home)
    {
      hide Pow2, Sound, Buddy, HeadIdx;
      x := x0;
      HeaderLevel(st, x);
      level := heap[x].level;
      while level < limit
        invariant Valid() && x != 0 && x in st.blocks && st.blocks[x] == Block(level, false)
        invariant old(st.blocks[x0].level) <= level <= limit
        invariant Live(st.blocks) - {x} == old(Live(st.blocks)) - {x0}
        invariant st.top == old(st.top) && st.lists.Keys == old(st.lists.Keys) && NoneLent(old(st.home), st.home)
        decreases limit - level
      {
        var found := FreeBuddy(x, level);
        if !found { return; }
        x := JoinWithBuddy(x, level);
        level := level + 1;
      }
    }

    method JoinWithBuddy(x: nat, level: nat) returns (p: nat)
      requires Valid() && x != 0 && x in st.blocks && st.blocks[x] == Block(level, false) && level < UP
      requires IsFree(st.blocks, Buddy(x, level), level)
      modifies this`heap, this`st
      ensures Valid() && p != 0 && p in st.blocks && st.blocks[p] == Block(level + 1, false)
      ensures Live(st.blocks) - {p} == old(Live(st.blocks)) - {x}
      ensures st.top == old(st.top) && st.lists.Keys == old(st.lists.Keys) && NoneLent(old(st.home), st.home)
    {
      hide Pow2, Linked, Tiling, Coalesced, HeadIdx, Agree, HeadsOk, Buddy;
      var q := Buddy(x, level);
      JoinStep(st, x);
      JoinLive(st.blocks, st.top, x);
      UnlinkFacts(st, q, level);
      ghost var s' := JoinState(st, x);
      MarkUsed(q, level);
      p := if q < x then q else x;
      heap := heap[p := heap[p].(level := level + 1)];
      st := s';
    }

    method LargeFree(x0: nat)
      requires Valid() && x0 != 0 && x0 in st.blocks && !st.blocks[x0].free && st.blocks[x0].level >= DIV
      modifies this`heap, this`st
      ensures Valid() && Live(st.blocks) == old(Live(st.blocks)) - {x0}
      ensures st.top == old(st.top) && st.lists.Keys == old(st.lists.Keys) && NoneLent(old(st.home), st.home)
    {
      hide Pow2, Sound, Buddy, HeadIdx;
      LevelBound(st, x0);
      var x, level := CoalesceUp(x0, UP);
      Release(Large(level), x, level);
    }

    method SmallFree(x0: nat)
      requires Valid() && x0 != 0 && x0 in st.blocks && !st.blocks[x0].free && st.blocks[x0].level < DIV
      modifies this`heap, this`st
      ensures Valid() && Live(st.blocks) == old(Live(st.blocks)) - {x0}
      ensures st.top == old(st.top) && st.lists.Keys == old(st.lists.Keys) && NoneLent(old(st.home), st.home)
    {
      hide Pow2, Sound, Buddy, HeadIdx;
      LevelBound(st, x0);
      var x, level := CoalesceUp(x0, DIV);
      LevelBound(st, x);
      if level == DIV {
        LargeFree(x);
      } else {
        Release(Small(level), x, level);
      }
    }

    method Release(id: ListId, x: nat, level: nat)
      requires Valid() && x != 0 && x in st.blocks && st.blocks[x] == Block(level, false)
      requires level == UP || !IsFree(st.blocks, Buddy(x, level), level)
      requires HomeOk(id, level) && !id.Tmp?
      modifies this`heap, this`st
      ensures Valid() && Live(st.blocks) == old(Live(st.blocks)) - {x}
      ensures st.top == old(st.top) && st.lists.Keys == old(st.lists.Keys) && NoneLent(old(st.home), st.home)
    {
      hide Pow2, Linked, Tiling, Coalesced, HeadIdx, Agree, CanPush, Buddy;
      LevelBound(st, x);
      ReleaseStep(st, x, id);
      LiveSetFree(st.blocks, x, true);
      BorrowHome(st, x, id);
      ghost var b := SetFree(st.blocks, x, true);
      MarkFree(id, x, level);
      st := st.(blocks := b);
    }

    /** Allocate size bytes: a block of the least level that holds them and a header. */
    method Malloc(size: nat, t: Thread) returns (r: Result)
      requires Valid() && (t.Loader? ==> forall l :: LOW <= l <= DIV ==> SmallList(t, l) in st.lists)
      modifies this`heap, this`top, this`st
      ensures Valid() && st.lists.Keys == old(st.lists.Keys)
      ensures r == TooLarge <==> size + HEADER > Pow2(UP)
      ensures !r.Ok? ==> st == old(st)
      ensures r.Ok? ==> Allocated(old(st.blocks), st.blocks, size, r.idx)
      ensures r != TooLarge ==> ServesSize(old(st.lists), old(top), heapSize, t, size, r, top)
      ensures r == OutOfMemory <==> r != TooLarge && NoFitFor(old(st.lists), t, size) && old(top) + Pow2(UP) > heapSize
      ensures top != old(top) <==> r != TooLarge && NoFitFor(old(st.lists), t, size) && old(top) + Pow2(UP) <= heapSize
      ensures top <= old(top) + Pow2(UP) && KeptBut(t, 0, old(st.lists), st.lists)
      ensures r.Ok? ==> Fills(size, t, old(st.lists), st.lists)
    {
      hide Pow2, Sound, HeadIdx, IsLevelFor, KeptBut, Fills, NoneFrom, Serves, NoFitFor, ServesSize;
      KeptSame(t, 0, st.lists);
      var need := SizeToLevel(size);
      LevelFits(size, need);
      if need > UP {
        return TooLarge;
      } else if need >= DIV {
        ghost var was := st.blocks;
        r := LargeMalloc(need);
        KeptLess(Shared, DIV, t, 0, old(st.lists), st.lists);
        SameServes(old(st.lists), old(top), heapSize, t, need, r, top);
        if r.Ok? {
          FillsNone(size, t, need, old(st.lists), st.lists);
          LiveReserved(was);
          ReservedStays(was, st.blocks, r.idx - HEADER, need);
        }
      } else {
        SharedLists(st);
        r := SmallMalloc(t, need);
        KeptLess(t, need, t, 0, old(st.lists), st.lists);
        if r.Ok? { FillsOne(size, t, need, old(st.lists), st.lists); }
      }
      ServedSize(old(st.lists), old(top), heapSize, t, size, need, r, top);
    }

    /** Free a block by the index malloc returned for it. */
    method Free(idx: nat)
      requires Valid() && idx > HEADER && idx - HEADER in Live(st.blocks)
      modifies this`heap, this`st
      ensures Valid() && Live(st.blocks) == old(Live(st.blocks)) - {idx - HEADER}
      ensures st.top == old(st.top) && st.lists.Keys == old(st.lists.Keys) && NoneLent(old(st.home), st.home)
    {
      hide Pow2, Sound, HeadIdx, Buddy;
      var x := idx - HEADER;
      LiveLevel(st.blocks, x, Live(st.blocks)[x]);
      HeaderLevel(st, x);
      if heap[x].level >= DIV {
        LargeFree(x);
      } else {
        SmallFree(x);
      }
    }
  }

  lemma PutTwice(m: map<nat, nat>, x: nat, a: nat, b: nat)
    ensures m[x := a][x := b] == m[x := b]
  {
  }

  lemma RightHalf(x: nat, l: nat, need: nat)
    requires need <= l && (need >= DIV || x >= Pow2(DIV))
    ensures x + Pow2(l) >= Pow2(DIV)
  {
    if need >= DIV { Pow2Mono(DIV, l); }
  }

  lemma UnlinkHome(s: State, x: nat)
    requires Sound(s, {x}) && x in s.home
    ensures Linked(s.heap, s.lists, s.home) && UnlinkState(s, x, 0).lists.Keys == s.lists.Keys
  {
    UnlinkFacts(s, x, 0);
  }

  lemma FreeNotLive(b: Blocks, x: nat)
    requires x in b && b[x].free
    ensures x !in Live(b)
  {
  }

  lemma LiveLevel(b: Blocks, x: nat, l: nat)
    requires x in Live(b) && Live(b)[x] == l
    ensures x in b && b[x] == Block(l, false)
  {
  }

  lemma BorrowHome(s: State, x: nat, id: ListId)
    requires CanPush(s, id, x) && x in s.blocks
    ensures var s' := PushState(s, id, x, s.blocks[x].level);
      s'.blocks == s.blocks && s'.top == s.top && x in s'.home && s'.lists.Keys == s.lists.Keys
  {
    PushFacts(s, id, x, s.blocks[x].level);
  }

  /** No block handed out later starts inside the reserved block. */
  lemma ReservedKept(was: Blocks, b: Blocks, top: nat, x: nat)
    requires 0 in Live(was) && Live(was)[0] == DIV && x !in Live(was)
    requires Tiling(b, top) && x in b && forall s :: s in Live(was) && s != x ==> s in Live(b) && Live(b)[s] == Live(was)[s]
    ensures x >= Pow2(DIV)
  {
    hide Pow2, Aligned;
    assert 0 in Live(b) && Live(b)[0] == DIV;
    LiveLevel(b, 0, DIV);
    BlocksApart(b, top, 0, x);
  }

  lemma ReservedStays(was: Blocks, b: Blocks, x: nat, l: nat)
    requires 0 in was && was[0] == Block(DIV, false) && x != 0
    requires Live(b) == Live(was)[x := l]
    ensures 0 in b && b[0] == Block(DIV, false)
  {
    assert 0 in Live(was);
    assert 0 in Live(b) && Live(b)[0] == DIV;
    LiveLevel(b, 0, DIV);
  }

  lemma HeaderLevel(s: State, x: nat)
    requires Sound(s, {}) && x in s.blocks
    ensures x in s.heap && s.heap[x].level == s.blocks[x].level
  {
    hide Pow2, Tiling, Coalesced, Linked, HeadIdx;
    assert AgreeAt(s.heap, s.blocks, s.home, x);
  }

  lemma LevelBound(s: State, x: nat)
    requires Sound(s, {}) && x in s.blocks
    ensures LOW <= s.blocks[x].level <= UP
  {
    hide Pow2, Coalesced, Linked, HeadIdx;
    BlocksApart(s.blocks, s.top, x, x);
  }

  lemma LevelFits(size: nat, l: nat)
    requires IsLevelFor(size, l)
    ensures LOW <= l && (l <= UP <==> size + HEADER <= Pow2(UP))
  {
    if l <= UP { Pow2Mono(l, UP); } else { Pow2Mono(UP, l - 1); }
  }

  lemma LiveReserved(b: Blocks)
    requires 0 in b && b[0] == Block(DIV, false)
    ensures 0 in Live(b)
  {
  }

  lemma LargeLists(s: State)
    requires Sound(s, {})
    ensures forall l :: DIV <= l <= UP ==> Large(l) in s.lists
  {
  }

  lemma SharedLists(s: State)
    requires Sound(s, {})
    ensures forall l :: LOW <= l <= DIV ==> Small(l) in s.lists
  {
  }

  lemma JoinLive(b: Blocks, top: nat, x: nat)
    requires Tiling(b, top) && x in b && !b[x].free && x != 0 && b[x].level < UP
    requires IsFree(b, Buddy(x, b[x].level), b[x].level) && 0 in b && b[0] == Block(DIV, false)
    ensures var p := if Buddy(x, b[x].level) < x then Buddy(x, b[x].level) else x;
      && p == Parent(x, b[x].level) != 0 && p in Join(b, x) && Join(b, x)[p] == Block(b[x].level + 1, false)
      && Live(Join(b, x)) - {p} == Live(b) - {x}
      && 0 in Join(b, x) && Join(b, x)[0] == Block(DIV, false)
  {
    hide Pow2, Buddy;
    LiveJoin(b, x);
    BuddyOf(b, top, x);
    FreeNotLive(b, Buddy(x, b[x].level));
  }

  lemma EmptyHeap(h: Heap, lists: Lists)
    ensures Tiling(map[], 0) && Coalesced(map[]) && Live(map[]) == map[]
    ensures lists == map[] ==> Linked(h, lists, map[])
  {
    assert 0 == 0 * Pow2(UP);
  }

  lemma ThreadHead(l: nat, j: nat, n: nat, idx: nat)
    requires LOW <= l <= DIV && j < n && idx == (UP - LOW + 10 + j * (DIV - LOW + 1) + (l - LOW)) * HEADER
    requires (UP - LOW + 10 + n * (DIV - LOW + 1)) * HEADER <= Pow2(DIV)
    ensures HeadIdx(Tmp(l, j)) == idx && 0 < idx < Pow2(DIV)
  {
    assert (j + 1) * (DIV - LOW + 1) <= n * (DIV - LOW + 1);
  }

  lemma StartsNotReserved(s: State, x: nat)
    requires Sound(s, {}) && 0 in s.blocks && s.blocks[0] == Block(DIV, false) && 0 < x < Pow2(DIV)
    ensures x !in s.blocks
  {
    hide Pow2, Coalesced, Linked, HeadIdx;
    assert x in s.blocks ==> Apart(s.blocks, 0, x);
  }

  /** The blocks that clients hold lie in the heap, above all list heads, and do not overlap. */
  lemma ClientBlocks(s: State, x: nat, y: nat)
    requires Sound(s, {}) && 0 in s.blocks && s.blocks[0] == Block(DIV, false)
    requires x in Live(s.blocks) && y in Live(s.blocks) && 0 < x && 0 < y
    ensures forall id :: id in s.lists ==> HeadIdx(id) < x
    ensures x + Pow2(Live(s.blocks)[x]) <= s.top
    ensures x != y ==> x + Pow2(Live(s.blocks)[x]) <= y || y + Pow2(Live(s.blocks)[y]) <= x
  {
    hide Pow2, Coalesced, Linked, HeadIdx;
    assert Apart(s.blocks, 0, x) && Apart(s.blocks, x, y);
    assert BuddyTiling.BlockOk(s.blocks, s.top, x);
  }
}
