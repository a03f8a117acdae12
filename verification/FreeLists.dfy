/**
 * The doubly linked free lists of the buddy allocator (core/buddy_malloc.hpp).
 *
 * Block headers and list heads live in raw memory and refer to each other by index.  The
 * model keeps, beside the memory, the sequence of nodes that each list stands for.  The
 * `prev` field of a list head is not part of the meaning: merging leaves it stale.
 */
module FreeLists {
  import opened BuddyTiling

  datatype Header = Header(inUse: bool, level: nat, prev: nat, next: nat)

  type Heap = map<nat, Header>

  /** One list per level: the large side, the shared small side, and one small side per
      loading thread. */
  datatype ListId = Large(level: nat) | Small(level: nat) | Tmp(level: nat, tid: nat)

  type Lists = map<ListId, seq<nat>>

  // sizeof(header)
  const HEADER: nat := 16

  ghost predicate ValidId(id: ListId) {
    match id
    case Large(l) => DIV <= l <= UP
    case Small(l) => LOW <= l <= DIV
    case Tmp(l, _) => LOW <= l <= DIV
  }

  /** Where the head of a list lives, inside the reserved block at the start of the heap. */
  function HeadIdx(id: ListId): nat
  {
    match id
    case Small(l) => (if l >= LOW then l - LOW + 1 else 0) * HEADER
    case Large(l) => (if l >= LOW then l - LOW + 2 else 0) * HEADER
    case Tmp(l, tid) => (UP - LOW + 10 + tid * (DIV - LOW + 1) + (if l >= LOW then l - LOW else 0)) * HEADER
  }

  lemma HeadIdxInjective(a: ListId, b: ListId)
    requires ValidId(a) && ValidId(b) && HeadIdx(a) == HeadIdx(b)
    ensures a == b
  {
  }

  // ---- one list ----

  ghost function NextOf(head: nat, l: seq<nat>, k: int): nat
    requires -1 <= k < |l|
  {
    if k + 1 < |l| then l[k + 1] else head
  }

  ghost function PrevOf(head: nat, l: seq<nat>, k: nat): nat
    requires k <= |l|
  {
    if k > 0 then l[k - 1] else head
  }

  ghost predicate NodeOk(h: Heap, head: nat, l: seq<nat>, k: nat)
    requires k < |l|
  {
    l[k] in h && h[l[k]].next == NextOf(head, l, k) && h[l[k]].prev == PrevOf(head, l, k)
  }

  ghost predicate ListOk(h: Heap, head: nat, l: seq<nat>) {
    && head in h && h[head].next == NextOf(head, l, -1)
    && forall k :: 0 <= k < |l| ==> NodeOk(h, head, l, k)
  }

  ghost predicate NoDup(l: seq<nat>) {
    forall i, j :: 0 <= i < j < |l| ==> l[i] != l[j]
  }

  // ---- all lists ----

  ghost predicate AtHome(lists: Lists, home: map<nat, ListId>, n: nat)
    requires n in home
  {
    home[n] in lists && n in lists[home[n]]
  }

  ghost predicate OneList(h: Heap, lists: Lists, home: map<nat, ListId>, id: ListId)
    requires id in lists
  {
    && ValidId(id)
    && ListOk(h, HeadIdx(id), lists[id])
    && NoDup(lists[id])
    && HeadIdx(id) !in home
    && forall k :: 0 <= k < |lists[id]| ==> lists[id][k] in home && home[lists[id][k]] == id
  }

  /** Every list is well linked, and `home` tells for each node the one list it is in. */
  ghost predicate Linked(h: Heap, lists: Lists, home: map<nat, ListId>) {
    && (forall id :: id in lists ==> OneList(h, lists, home, id))
    && (forall n :: n in home ==> AtHome(lists, home, n))
  }

  // ---- adding at the front ----

  function Push(h: Heap, head: nat, n: nat, level: nat): (h': Heap)
    requires head in h && h[head].next in h && n != head && n != h[head].next
  {
    var first := h[head].next;
    var h1 := h[n := Header(false, level, head, first)];
    var h2 := h1[head := h1[head].(next := n)];
    h2[first := h2[first].(prev := n)]
  }

  lemma PushOne(h: Heap, head: nat, l: seq<nat>, n: nat, level: nat)
    requires ListOk(h, head, l) && NoDup(l) && head !in l && n !in l && n != head
    ensures h[head].next in h && n != h[head].next
    ensures ListOk(Push(h, head, n, level), head, [n] + l) && NoDup([n] + l)
  {
    if l != [] { assert NodeOk(h, head, l, 0); }
    var h', l' := Push(h, head, n, level), [n] + l;
    forall k | 0 <= k < |l'|
      ensures NodeOk(h', head, l', k)
    {
      if k > 0 {
        assert NodeOk(h, head, l, k - 1);
        assert l'[k] == l[k - 1];
      }
    }
  }

  lemma PushOther(h: Heap, head: nat, n: nat, level: nat, head': nat, l': seq<nat>)
    requires head in h && h[head].next in h && n != head && n != h[head].next
    requires ListOk(h, head', l')
    requires head' != head && head' != n && head' != h[head].next
    requires head !in l' && n !in l' && h[head].next !in l'
    ensures ListOk(Push(h, head, n, level), head', l')
  {
    forall k | 0 <= k < |l'|
      ensures NodeOk(Push(h, head, n, level), head', l', k)
    {
      assert NodeOk(h, head', l', k);
    }
  }

  lemma PushLinked(h: Heap, lists: Lists, home: map<nat, ListId>, id: ListId, n: nat, level: nat)
    requires Linked(h, lists, home) && id in lists && n !in home
    requires forall i :: i in lists ==> HeadIdx(i) != n
    ensures HeadIdx(id) in h && h[HeadIdx(id)].next in h && n != HeadIdx(id) && n != h[HeadIdx(id)].next
    ensures Linked(Push(h, HeadIdx(id), n, level), lists[id := [n] + lists[id]], home[n := id])
  {
    hide ListOk;
    var head, l := HeadIdx(id), lists[id];
    assert OneList(h, lists, home, id);
    PushOne(h, head, l, n, level);
    FirstNode(h, head, l);
    var h', lists', home' := Push(h, head, n, level), lists[id := [n] + l], home[n := id];
    forall i | i in lists'
      ensures OneList(h', lists', home', i)
    {
      assert OneList(h, lists, home, i);
      if i != id {
        if HeadIdx(i) == head { HeadIdxInjective(i, id); }
        PushOther(h, head, n, level, HeadIdx(i), lists[i]);
      }
    }
    forall m | m in home'
      ensures AtHome(lists', home', m)
    {
      if m == n { assert lists'[id][0] == n; } else { assert AtHome(lists, home, m); Prepend(n, l, m); }
    }
  }

  lemma FirstNode(h: Heap, head: nat, l: seq<nat>)
    requires ListOk(h, head, l)
    ensures head in h && h[head].next == if l == [] then head else l[0]
  {
  }

  lemma Prepend(n: nat, l: seq<nat>, m: nat)
    ensures m in l ==> m in [n] + l
  {
  }

  // ---- taking out ----

  function Unlink(h: Heap, n: nat, level: nat): (h': Heap)
    requires n in h && h[n].prev in h && h[n].next in h
  {
    var prev, next := h[n].prev, h[n].next;
    var h1 := h[n := h[n].(inUse := true, level := level)];
    var h2 := h1[prev := h1[prev].(next := next)];
    h2[next := h2[next].(prev := prev)]
  }

  ghost function Without(l: seq<nat>, k: nat): seq<nat>
    requires k < |l|
  {
    l[..k] + l[k + 1..]
  }

  lemma UnlinkOne(h: Heap, head: nat, l: seq<nat>, k: nat, level: nat)
    requires ListOk(h, head, l) && NoDup(l) && head !in l && k < |l|
    ensures l[k] in h && h[l[k]].prev in h && h[l[k]].next in h
    ensures h[l[k]].prev == PrevOf(head, l, k) && h[l[k]].next == NextOf(head, l, k)
    ensures ListOk(Unlink(h, l[k], level), head, Without(l, k)) && NoDup(Without(l, k))
  {
    var n, w := l[k], Without(l, k);
    assert NodeOk(h, head, l, k);
    if k > 0 { assert NodeOk(h, head, l, k - 1); }
    if k + 1 < |l| { assert NodeOk(h, head, l, k + 1); }
    var h' := Unlink(h, n, level);
    forall j | 0 <= j < |w|
      ensures NodeOk(h', head, w, j)
    {
      assert NodeOk(h, head, l, if j < k then j else j + 1);
      assert w[j] == l[if j < k then j else j + 1];
    }
  }

  lemma UnlinkOther(h: Heap, n: nat, level: nat, head': nat, l': seq<nat>)
    requires n in h && h[n].prev in h && h[n].next in h
    requires ListOk(h, head', l')
    requires head' != n && head' != h[n].prev && head' != h[n].next
    requires n !in l' && h[n].prev !in l' && h[n].next !in l'
    ensures ListOk(Unlink(h, n, level), head', l')
  {
    forall k | 0 <= k < |l'|
      ensures NodeOk(Unlink(h, n, level), head', l', k)
    {
      assert NodeOk(h, head', l', k);
    }
  }

  ghost function IndexIn(l: seq<nat>, n: nat): (k: nat)
    requires n in l
    ensures k < |l| && l[k] == n
  {
    var k :| 0 <= k < |l| && l[k] == n;
    k
  }

  ghost function Remove(lists: Lists, home: map<nat, ListId>, n: nat): Lists
    requires n in home && AtHome(lists, home, n)
  {
    lists[home[n] := Without(lists[home[n]], IndexIn(lists[home[n]], n))]
  }

  lemma UnlinkLinked(h: Heap, lists: Lists, home: map<nat, ListId>, n: nat, level: nat)
    requires Linked(h, lists, home) && n in home
    ensures AtHome(lists, home, n) && n in h && h[n].prev in h && h[n].next in h
    ensures Linked(Unlink(h, n, level), Remove(lists, home, n), home - {n})
  {
    hide ListOk;
    assert AtHome(lists, home, n);
    var id := home[n];
    var head, l := HeadIdx(id), lists[id];
    var k := IndexIn(l, n);
    assert OneList(h, lists, home, id);
    UnlinkOne(h, head, l, k, level);
    var h', lists', home' := Unlink(h, n, level), Remove(lists, home, n), home - {n};
    forall i | i in lists'
      ensures OneList(h', lists', home', i)
    {
      assert OneList(h, lists, home, i);
      if i != id {
        if HeadIdx(i) == head { HeadIdxInjective(i, id); }
        UnlinkOther(h, n, level, HeadIdx(i), lists[i]);
      }
    }
    forall m | m in home'
      ensures AtHome(lists', home', m)
    {
      assert AtHome(lists, home, m);
      if home[m] == id { StillIn(l, k, m); }
    }
  }

  lemma StillIn(l: seq<nat>, k: nat, m: nat)
    requires k < |l| && m in l && m != l[k]
    ensures m in Without(l, k)
  {
    var i := IndexIn(l, m);
    assert Without(l, k)[if i < k then i else i - 1] == m;
  }

  // ---- free lists against blocks ----

  ghost predicate HomeOk(id: ListId, level: nat) {
    id.level == level && (level >= DIV <==> id.Large?)
  }

  ghost predicate AgreeAt(h: Heap, b: Blocks, home: map<nat, ListId>, s: nat)
    requires s in b
  {
    && s in h && h[s].level == b[s].level && h[s].inUse == !b[s].free
    && (b[s].free <==> s in home)
    && (s in home ==> HomeOk(home[s], b[s].level))
  }

  /** Headers tell level and use of every block, and exactly the free blocks are listed, each
      in a list of its own level; the blocks in `except` are being worked on. */
  ghost predicate Agree(h: Heap, b: Blocks, home: map<nat, ListId>, except: set<nat>) {
    && (forall s :: s in b && s !in except ==> AgreeAt(h, b, home, s))
    && (forall n :: n in home ==> n in b)
  }

  lemma PushFrame(h: Heap, head: nat, n: nat, level: nat)
    requires head in h && h[head].next in h && n != head && n != h[head].next
    ensures var h' := Push(h, head, n, level);
      && n in h' && !h'[n].inUse && h'[n].level == level
      && forall a :: a in h && a != n ==> a in h' && h'[a].inUse == h[a].inUse && h'[a].level == h[a].level
  {
  }

  lemma UnlinkFrame(h: Heap, n: nat, level: nat)
    requires n in h && h[n].prev in h && h[n].next in h
    ensures var h' := Unlink(h, n, level);
      && n in h' && h'[n].inUse && h'[n].level == level
      && forall a :: a in h && a != n ==> a in h' && h'[a].inUse == h[a].inUse && h'[a].level == h[a].level
  {
  }
}
