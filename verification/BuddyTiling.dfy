/**
 * The heap of the buddy allocator seen as a set of blocks (core/buddy_malloc.hpp).
 *
 * A block starts at an index that is a multiple of its size 2^level.  The heap obtained so
 * far is [0, top); the allocator keeps it tiled by such blocks, each free or in use.
 */
module BuddyTiling {
  import opened Words

  // block sizes: 2^LOW .. 2^UP; blocks of 2^DIV and more belong to the large side
  const LOW: nat := 4
  const DIV: nat := 22
  const UP: nat := 32

  function Pow2(n: nat): (r: nat)
    ensures r > 0
  {
    if n == 0 then 1 else 2 * Pow2(n - 1)
  }

  lemma Pow2Double(n: nat)
    ensures Pow2(n + 1) == 2 * Pow2(n)
  {
  }

  lemma {:induction false} Pow2Mono(m: nat, n: nat)
    requires m <= n
    ensures Pow2(m) <= Pow2(n)
    ensures m < n ==> 2 * Pow2(m) <= Pow2(n)
  {
    if m < n { Pow2Mono(m, n - 1); }
  }

  // ---- aligned dyadic intervals ----

  ghost predicate Multiple(s: nat, u: nat)
  {
    exists k: nat {:trigger k * u} :: s == k * u
  }

  ghost predicate Aligned(s: nat, l: nat) { Multiple(s, Pow2(l)) }

  lemma {:induction false} Pow2IsMultiple(l: nat, m: nat)
    requires l <= m
    ensures Multiple(Pow2(m), Pow2(l))
  {
    if l == m {
      assert Pow2(m) == 1 * Pow2(l);
    } else {
      Pow2IsMultiple(l, m - 1);
      var k: nat :| Pow2(m - 1) == k * Pow2(l);
      assert Pow2(m) == (2 * k) * Pow2(l);
    }
  }

  lemma MultipleOfMultiple(s: nat, t: nat, u: nat)
    requires Multiple(s, t) && Multiple(t, u)
    ensures Multiple(s, u)
  {
    var j: nat :| s == j * t;
    var k: nat :| t == k * u;
    assert s == (j * k) * u;
  }

  lemma MultipleSum(s: nat, t: nat, u: nat)
    requires Multiple(s, u) && Multiple(t, u)
    ensures Multiple(s + t, u)
    ensures s <= t ==> Multiple(t - s, u)
  {
    var j: nat :| s == j * u;
    var k: nat :| t == k * u;
    assert s + t == (j + k) * u;
    if s <= t && s != t {
      if k <= j { MulLe(k, j, u); }
      assert t - s == (k - j) * u;
    } else if s == t {
      assert 0 == 0 * u;
    }
  }

  lemma MulLe(a: nat, b: nat, u: nat)
    requires a <= b
    ensures a * u <= b * u
  {
  }

  /** Between two multiples of u there is room for at least u. */
  lemma MultipleGap(s: nat, t: nat, u: nat)
    requires Multiple(s, u) && Multiple(t, u) && s < t
    ensures s + u <= t
  {
    var j: nat :| s == j * u;
    var k: nat :| t == k * u;
    if k <= j { MulLe(k, j, u); }
    MulLe(j + 1, k, u);
  }

  lemma AlignedDown(s: nat, l: nat, m: nat)
    requires Aligned(s, m) && l <= m
    ensures Aligned(s, l)
  {
    Pow2IsMultiple(l, m);
    MultipleOfMultiple(s, Pow2(m), Pow2(l));
  }

  /** Aligned blocks that meet are nested. */
  lemma Nested(s: nat, l: nat, t: nat, m: nat)
    requires Aligned(s, l) && Aligned(t, m) && l <= m
    requires s < t + Pow2(m) && t < s + Pow2(l)
    ensures t <= s && s + Pow2(l) <= t + Pow2(m)
  {
    hide Pow2;
    AlignedDown(t, l, m);
    Pow2IsMultiple(l, m);
    MultipleSum(t, Pow2(m), Pow2(l));
    MultipleGap(s, t + Pow2(m), Pow2(l));
    if s < t { MultipleGap(s, t, Pow2(l)); }
  }

  /** idx ^ (1 << level): flip one bit of the index. */
  function Buddy(s: nat, l: nat): (b: nat)
  {
    hide Pow2;
    if (s / Pow2(l)) % 2 == 0 then s + Pow2(l)
    else
      BitSet(s, Pow2(l));
      s - Pow2(l)
  }

  lemma BitSet(s: nat, u: nat)
    requires u > 0 && (s / u) % 2 != 0
    ensures s >= u
  {
  }

  /** The block that a block and its buddy make together. */
  function Parent(s: nat, l: nat): (p: nat) {
    var b := Buddy(s, l);
    if b < s then b else s
  }

  lemma BuddyFacts(s: nat, l: nat)
    requires Aligned(s, l)
    ensures Aligned(Buddy(s, l), l) && Aligned(Parent(s, l), l + 1)
    ensures Buddy(Buddy(s, l), l) == s && Buddy(s, l) != s
    ensures (Parent(s, l) == s && Buddy(s, l) == s + Pow2(l))
         || (Parent(s, l) == Buddy(s, l) && s == Buddy(s, l) + Pow2(l))
  {
    var k: nat :| s == k * Pow2(l);
    if k % 2 == 0 {
      BuddyPair(k / 2, l, s);
    } else {
      MulDiff(k, 1, Pow2(l));
      BuddyPair(k / 2, l, s - Pow2(l));
    }
  }

  /** The even child at 2jU and the odd child at (2j+1)U are each other's buddies. */
  lemma BuddyPair(j: nat, l: nat, s: nat)
    requires s == (2 * j) * Pow2(l)
    ensures Buddy(s, l) == s + Pow2(l) && Buddy(s + Pow2(l), l) == s
    ensures Aligned(s, l) && Aligned(s + Pow2(l), l) && Aligned(s, l + 1)
  {
    EvenChild(j, Pow2(l), s);
    DoubleSize(j, l, s);
    assert s + Pow2(l) == (2 * j + 1) * Pow2(l);
  }

  /** The children 2jU and (2j+1)U of a parent differ in one bit. */
  lemma EvenChild(j: nat, u: nat, s: nat)
    requires u > 0 && s == (2 * j) * u
    ensures s / u == 2 * j && (s + u) / u == 2 * j + 1
  {
    DivMultiple(2 * j, u);
    DivMultiple(2 * j + 1, u);
    assert (2 * j + 1) * u == s + u;
  }

  lemma DoubleSize(j: nat, l: nat, s: nat)
    requires s == (2 * j) * Pow2(l)
    ensures Aligned(s, l + 1)
  {
    assert s == j * Pow2(l + 1);
  }

  lemma DivMultiple(k: nat, u: nat)
    requires u > 0
    ensures (k * u) / u == k
  {
    var q := (k * u) / u;
    MulDiff(k, q, u);
    MulBound(k - q, u);
    MulBound(q - k, u);
    MulDiff(q, k, u);
  }

  // ---- tilings ----

  datatype Block = Block(level: nat, free: bool)

  type Blocks = map<nat, Block>

  ghost function EndOf(b: Blocks, s: nat): nat
    requires s in b
  {
    s + Pow2(b[s].level)
  }

  ghost predicate BlockOk(b: Blocks, top: nat, s: nat)
    requires s in b
  {
    LOW <= b[s].level <= UP && Aligned(s, b[s].level) && EndOf(b, s) <= top
  }

  ghost predicate Apart(b: Blocks, s: nat, t: nat)
    requires s in b && t in b
  {
    s == t || EndOf(b, s) <= t || EndOf(b, t) <= s
  }

  ghost predicate Covers(b: Blocks, s: nat, p: nat) {
    s in b && s <= p < EndOf(b, s)
  }

  ghost predicate Covered(b: Blocks, p: nat) { exists s :: Covers(b, s, p) }

  /** [0, top) is tiled exactly by aligned power-of-two blocks. */
  ghost predicate Tiling(b: Blocks, top: nat) {
    && Aligned(top, UP)
    && (forall s :: s in b ==> BlockOk(b, top, s))
    && (forall s, t :: s in b && t in b ==> Apart(b, s, t))
    && (forall p :: 0 <= p < top ==> Covered(b, p))
  }

  ghost predicate IsFree(b: Blocks, s: nat, l: nat) { s in b && b[s] == Block(l, true) }

  /** No two buddies are both free: coalescing is maximal. */
  ghost predicate Coalesced(b: Blocks) {
    forall s :: s in b && b[s].free && b[s].level < UP ==> !IsFree(b, Buddy(s, b[s].level), b[s].level)
  }

  /** The parent of any block below the top level lies inside the heap. */
  lemma ParentInHeap(s: nat, l: nat, top: nat)
    requires Aligned(s, l) && l < UP && Aligned(top, UP) && s < top
    ensures Parent(s, l) + Pow2(l + 1) <= top
  {
    BuddyFacts(s, l);
    Pow2Double(l);
    AlignedDown(top, l + 1, UP);
    AlignedGap(Parent(s, l), top, l + 1);
  }

  lemma AlignedGap(s: nat, t: nat, l: nat)
    requires Aligned(s, l) && Aligned(t, l) && s < t
    ensures s + Pow2(l) <= t
  {
    MultipleGap(s, t, Pow2(l));
  }

  /** The allocator reads a header at the buddy index: a real block always starts there, and
      it is not larger than the block whose buddy is looked up. */
  lemma BuddyIsABlock(b: Blocks, top: nat, s: nat)
    requires Tiling(b, top) && s in b && b[s].level < UP
    ensures Buddy(s, b[s].level) in b && b[Buddy(s, b[s].level)].level <= b[s].level
  {
    hide Pow2, Aligned, Buddy, Parent;
    var l := b[s].level;
    var q := Buddy(s, l);
    assert BlockOk(b, top, s);
    BuddyFacts(s, l);
    ParentInHeap(s, l, top);
    Pow2Double(l);
    assert Covered(b, q);
    var t :| Covers(b, t, q);
    var m := b[t].level;
    assert BlockOk(b, top, t) && Apart(b, s, t);
    if m > l {
      Nested(Parent(s, l), l + 1, t, m);
      assert false;
    }
    Nested(t, m, q, l);
  }

  // ---- what the allocator does to the tiling ----

  ghost function SetFree(b: Blocks, s: nat, free: bool): Blocks
    requires s in b
  {
    b[s := Block(b[s].level, free)]
  }

  /** Split a block in use: the left half stays in use, the right half becomes free. */
  ghost function Split(b: Blocks, s: nat): Blocks
    requires s in b && b[s].level > 0
  {
    var l := b[s].level - 1;
    b[s := Block(l, false)][s + Pow2(l) := Block(l, true)]
  }

  /** Join a block in use with its buddy. */
  ghost function Join(b: Blocks, s: nat): Blocks
    requires s in b
  {
    var l := b[s].level;
    (b - {s, Buddy(s, l)})[Parent(s, l) := Block(l + 1, false)]
  }

  /** One more block of the largest size from the end of the heap. */
  ghost function Extend(b: Blocks, top: nat): Blocks {
    b[top := Block(UP, true)]
  }

  lemma SetFreeTiling(b: Blocks, top: nat, s: nat, free: bool)
    requires Tiling(b, top) && s in b
    ensures Tiling(SetFree(b, s, free), top)
  {
    hide Pow2, Aligned;
    var b' := SetFree(b, s, free);
    assert forall t :: t in b ==> BlockOk(b, top, t) && BlockOk(b', top, t);
    forall t, u | t in b' && u in b'
      ensures Apart(b', t, u)
    {
      assert Apart(b, t, u);
    }
    forall p | 0 <= p < top
      ensures Covered(b', p)
    {
      assert Covered(b, p);
      var t :| Covers(b, t, p);
      assert Covers(b', t, p);
    }
  }

  lemma UseCoalesced(b: Blocks, s: nat)
    requires Coalesced(b) && s in b
    ensures Coalesced(SetFree(b, s, false))
  {
  }

  /** Freeing keeps the heap coalesced exactly when the buddy is not free at the same level. */
  lemma FreeCoalesced(b: Blocks, top: nat, s: nat)
    requires Tiling(b, top) && Coalesced(b) && s in b
    ensures Coalesced(SetFree(b, s, true)) <==>
      b[s].level == UP || !IsFree(b, Buddy(s, b[s].level), b[s].level)
  {
    hide Pow2, Aligned, Buddy;
    var b' := SetFree(b, s, true);
    var l := b[s].level;
    assert BlockOk(b, top, s);
    BuddyFacts(s, l);
    if l < UP && IsFree(b, Buddy(s, l), l) {
      assert b'[s].free && IsFree(b', Buddy(s, l), l);
    } else {
      forall t | t in b' && b'[t].free && b'[t].level < UP
        ensures !IsFree(b', Buddy(t, b'[t].level), b'[t].level)
      {
        assert BlockOk(b, top, t);
        BuddyFacts(t, b'[t].level);
      }
    }
  }

  lemma SplitTiling(b: Blocks, top: nat, s: nat)
    requires Tiling(b, top) && s in b && b[s].level > LOW
    ensures Tiling(Split(b, s), top)
    ensures s + Pow2(b[s].level - 1) !in b
  {
    hide Pow2, Aligned;
    var b', l := Split(b, s), b[s].level - 1;
    var h := s + Pow2(l);
    assert BlockOk(b, top, s);
    Pow2Double(l);
    HalvesAligned(s, l);
    assert h in b ==> Apart(b, s, h);
    forall t | t in b'
      ensures BlockOk(b', top, t)
    {
      if t != h { assert BlockOk(b, top, t); }
    }
    forall t, u | t in b' && u in b'
      ensures Apart(b', t, u)
    {
      if t != h { assert Apart(b, s, t); }
      if u != h { assert Apart(b, s, u); }
      if t != h && u != h { assert Apart(b, t, u); }
    }
    forall p | 0 <= p < top
      ensures Covered(b', p)
    {
      assert Covered(b, p);
      var t :| Covers(b, t, p);
      if t != s { assert t != h; assert Covers(b', t, p); }
      else if p < h { assert Covers(b', s, p); }
      else { assert Covers(b', h, p); }
    }
  }

  lemma HalvesAligned(s: nat, l: nat)
    requires Aligned(s, l + 1)
    ensures Aligned(s, l) && Aligned(s + Pow2(l), l) && Buddy(s, l) == s + Pow2(l) && Parent(s, l) == s
  {
    var j: nat :| s == j * Pow2(l + 1);
    assert s == (2 * j) * Pow2(l);
    BuddyPair(j, l, s);
  }

  lemma SplitCoalesced(b: Blocks, top: nat, s: nat)
    requires Tiling(b, top) && Coalesced(b) && s in b && b[s].level > LOW && !b[s].free
    ensures Coalesced(Split(b, s))
  {
    hide Pow2, Aligned, Buddy, Parent;
    var b', l := Split(b, s), b[s].level - 1;
    assert BlockOk(b, top, s);
    HalvesAligned(s, l);
    BuddyFacts(s, l);
    forall t | t in b' && b'[t].free && b'[t].level < UP
      ensures !IsFree(b', Buddy(t, b'[t].level), b'[t].level)
    {
      if t != s + Pow2(l) {
        assert BlockOk(b, top, t);
        BuddyFacts(t, b[t].level);
      }
    }
  }

  lemma JoinTiling(b: Blocks, top: nat, s: nat)
    requires Tiling(b, top) && s in b && b[s].level < UP
    requires Buddy(s, b[s].level) in b && b[Buddy(s, b[s].level)].level == b[s].level
    ensures Tiling(Join(b, s), top)
  {
    hide Pow2, Aligned, Buddy, Parent;
    var b', l := Join(b, s), b[s].level;
    var q, h := Buddy(s, l), Parent(s, l);
    assert BlockOk(b, top, s) && BlockOk(b, top, q);
    BuddyFacts(s, l);
    ParentInHeap(s, l, top);
    Pow2Double(l);
    forall t | t in b'
      ensures BlockOk(b', top, t)
    {
      if t != h { assert BlockOk(b, top, t); }
    }
    forall t, u | t in b' && u in b'
      ensures Apart(b', t, u)
    {
      if t != h { assert Apart(b, s, t) && Apart(b, q, t); }
      if u != h { assert Apart(b, s, u) && Apart(b, q, u); }
      if t != h && u != h { assert Apart(b, t, u); }
    }
    forall p | 0 <= p < top
      ensures Covered(b', p)
    {
      assert Covered(b, p);
      var t :| Covers(b, t, p);
      if t == s || t == q { assert Covers(b', h, p); } else { assert Covers(b', t, p); }
    }
  }

  lemma JoinCoalesced(b: Blocks, s: nat)
    requires Coalesced(b) && s in b && !b[s].free
    ensures Coalesced(Join(b, s))
  {
    hide Pow2, Buddy, Parent;
  }

  lemma NextAligned(s: nat, l: nat)
    requires Aligned(s, l)
    ensures Aligned(s + Pow2(l), l)
  {
    var k: nat :| s == k * Pow2(l);
    assert s + Pow2(l) == (k + 1) * Pow2(l);
  }

  lemma ExtendTiling(b: Blocks, top: nat)
    requires Tiling(b, top) && Coalesced(b)
    ensures top !in b
    ensures Tiling(Extend(b, top), top + Pow2(UP)) && Coalesced(Extend(b, top))
  {
    hide Pow2, Aligned, Buddy;
    var b', top' := Extend(b, top), top + Pow2(UP);
    assert top in b ==> BlockOk(b, top, top);
    NextAligned(top, UP);
    forall t | t in b'
      ensures BlockOk(b', top', t)
    {
      if t != top { assert BlockOk(b, top, t); }
    }
    forall t, u | t in b' && u in b'
      ensures Apart(b', t, u)
    {
      if t != top { assert BlockOk(b, top, t); }
      if u != top { assert BlockOk(b, top, u); }
      if t != top && u != top { assert Apart(b, t, u); }
    }
    forall p | 0 <= p < top'
      ensures Covered(b', p)
    {
      if p < top {
        assert Covered(b, p);
        var t :| Covers(b, t, p);
        assert Covers(b', t, p);
      } else {
        assert Covers(b', top, p);
      }
    }
  }

  // ---- the layout is determined by the live blocks ----

  /** The part [s, s + 2^l) of the heap meets no live block. */
  ghost predicate NoLive(b: Blocks, s: nat, l: nat) {
    forall t :: t in b && !b[t].free ==> EndOf(b, t) <= s || s + Pow2(l) <= t
  }

  ghost predicate InFreeBlock(b: Blocks, s: nat, l: nat, t: nat) {
    t in b && b[t].free && t <= s && s + Pow2(l) <= EndOf(b, t)
  }

  /** Any aligned part of the heap without live blocks lies inside one free block. */
  lemma {:induction false} FreePartInOneBlock(b: Blocks, top: nat, s: nat, l: nat) returns (t: nat)
    requires Tiling(b, top) && Coalesced(b)
    requires LOW <= l <= UP && Aligned(s, l) && s + Pow2(l) <= top && NoLive(b, s, l)
    ensures InFreeBlock(b, s, l, t)
    decreases l
  {
    hide Pow2, Aligned, Buddy, Parent;
    if l == LOW {
      assert Covered(b, s);
      t :| Covers(b, t, s);
      assert BlockOk(b, top, t);
      Nested(s, l, t, b[t].level);
    } else {
      Pow2Double(l - 1);
      HalvesAligned(s, l - 1);
      var h := s + Pow2(l - 1);
      var t1 := FreePartInOneBlock(b, top, s, l - 1);
      var t2 := FreePartInOneBlock(b, top, h, l - 1);
      assert BlockOk(b, top, t1) && BlockOk(b, top, t2);
      t := t1;
      if b[t1].level >= l {
        Nested(s, l, t1, b[t1].level);
      } else if b[t2].level >= l {
        Nested(s, l, t2, b[t2].level);
        t := t2;
      } else {
        SameLevel(b, top, s, l - 1, t1);
        NotBothFree(b, s, l - 1);
        SameLevel(b, top, h, l - 1, t2);
        assert false;
      }
    }
  }

  lemma NotBothFree(b: Blocks, s: nat, l: nat)
    requires Coalesced(b) && IsFree(b, s, l) && l < UP
    ensures !IsFree(b, Buddy(s, l), l)
  {
  }

  lemma SameLevel(b: Blocks, top: nat, s: nat, l: nat, t: nat)
    requires Tiling(b, top) && InFreeBlock(b, s, l, t) && b[t].level <= l
    ensures t == s && b[t].level == l
  {
    if b[t].level < l { Pow2Mono(b[t].level, l); }
  }

  /** Which blocks are free is decided by the live blocks and the heap size alone: the free
      blocks are the maximal aligned parts without live blocks. */
  lemma FreeIffMaximal(b: Blocks, top: nat, s: nat, l: nat)
    requires Tiling(b, top) && Coalesced(b)
    requires LOW <= l <= UP && Aligned(s, l) && s + Pow2(l) <= top
    ensures IsFree(b, s, l) <==>
      NoLive(b, s, l) && (l == UP || !NoLive(b, Parent(s, l), l + 1))
  {
    hide Pow2, Aligned, Buddy, Parent, NoLive, Tiling, Coalesced;
    if IsFree(b, s, l) {
      InFreeNoLive(b, top, s, l, s);
      if l < UP { FreeIsMaximal(b, top, s, l); }
    }
    if NoLive(b, s, l) && (l == UP || !NoLive(b, Parent(s, l), l + 1)) {
      MaximalIsFree(b, top, s, l);
    }
  }

  lemma FreeIsMaximal(b: Blocks, top: nat, s: nat, l: nat)
    requires Tiling(b, top) && Coalesced(b) && IsFree(b, s, l) && l < UP
    ensures !NoLive(b, Parent(s, l), l + 1)
  {
    hide Pow2, Aligned, Buddy, Parent, Coalesced, NoLive;
    assert BlockOk(b, top, s);
    BuddyFacts(s, l);
    Pow2Double(l);
    ParentInHeap(s, l, top);
    if NoLive(b, Parent(s, l), l + 1) {
      var t := FreePartInOneBlock(b, top, Parent(s, l), l + 1);
      BlocksApart(b, top, s, t);
      assert false;
    }
  }

  lemma BlocksApart(b: Blocks, top: nat, s: nat, t: nat)
    requires Tiling(b, top) && s in b && t in b
    ensures Apart(b, s, t) && BlockOk(b, top, s) && BlockOk(b, top, t)
  {
  }

  lemma MaximalIsFree(b: Blocks, top: nat, s: nat, l: nat)
    requires Tiling(b, top) && Coalesced(b)
    requires LOW <= l <= UP && Aligned(s, l) && s + Pow2(l) <= top
    requires NoLive(b, s, l) && (l == UP || !NoLive(b, Parent(s, l), l + 1))
    ensures IsFree(b, s, l)
  {
    hide Pow2, Aligned, Buddy, Parent, NoLive, Coalesced;
    var t := FreePartInOneBlock(b, top, s, l);
    BlocksApart(b, top, t, t);
    if b[t].level > l {
      PartOfLarger(b, top, s, l, t);
      assert false;
    }
    SameLevel(b, top, s, l, t);
  }

  lemma PartOfLarger(b: Blocks, top: nat, s: nat, l: nat, t: nat)
    requires Tiling(b, top) && Aligned(s, l) && InFreeBlock(b, s, l, t) && l < b[t].level
    ensures NoLive(b, Parent(s, l), l + 1)
  {
    hide Pow2, Aligned, Buddy, Parent, NoLive;
    BuddyFacts(s, l);
    BlocksApart(b, top, t, t);
    Pow2Double(l);
    Nested(Parent(s, l), l + 1, t, b[t].level);
    InFreeNoLive(b, top, Parent(s, l), l + 1, t);
  }

  lemma InFreeNoLive(b: Blocks, top: nat, s: nat, l: nat, t: nat)
    requires Tiling(b, top) && InFreeBlock(b, s, l, t)
    ensures NoLive(b, s, l)
  {
    hide Pow2;
    forall u | u in b && !b[u].free
      ensures EndOf(b, u) <= s || s + Pow2(l) <= u
    {
      assert Apart(b, t, u);
    }
  }

  ghost function Live(b: Blocks): map<nat, nat> {
    map s | s in b && !b[s].free :: b[s].level
  }

  lemma SameLiveSameNoLive(b: Blocks, c: Blocks, s: nat, l: nat)
    requires Live(b) == Live(c) && NoLive(b, s, l)
    ensures NoLive(c, s, l)
  {
    forall t | t in c && !c[t].free
      ensures EndOf(c, t) <= s || s + Pow2(l) <= t
    {
      assert t in Live(c);
      assert t in Live(b) && Live(b)[t] == b[t].level;
    }
  }

  lemma LiveSetFree(b: Blocks, s: nat, free: bool)
    requires s in b
    ensures Live(SetFree(b, s, free)) == if free then Live(b) - {s} else Live(b)[s := b[s].level]
  {
  }

  lemma LiveSplit(b: Blocks, s: nat)
    requires s in b && b[s].level > 0 && !b[s].free && s + Pow2(b[s].level - 1) !in b
    ensures Live(Split(b, s)) == Live(b)[s := b[s].level - 1]
  {
    hide Pow2;
  }

  lemma LiveJoin(b: Blocks, s: nat)
    requires s in b && IsFree(b, Buddy(s, b[s].level), b[s].level)
    ensures Live(Join(b, s)) == (Live(b) - {s})[Parent(s, b[s].level) := b[s].level + 1]
  {
    hide Pow2, Buddy;
  }

  lemma LiveExtend(b: Blocks, top: nat)
    requires top !in b
    ensures Live(Extend(b, top)) == Live(b)
  {
  }

  /** History independence: whatever sequence of calls led there, two heaps of the same size
      with the same live blocks have the same blocks. */
  lemma LayoutIsDetermined(b: Blocks, c: Blocks, top: nat)
    requires Tiling(b, top) && Coalesced(b) && Tiling(c, top) && Coalesced(c)
    requires Live(b) == Live(c)
    ensures b == c
  {
    forall s
      ensures s in b ==> s in c && c[s] == b[s]
      ensures s in c ==> s in b && c[s] == b[s]
    {
      if s in b { BlockCarries(b, c, top, s); }
      if s in c { BlockCarries(c, b, top, s); }
    }
  }

  lemma BlockCarries(b: Blocks, c: Blocks, top: nat, s: nat)
    requires Tiling(b, top) && Coalesced(b) && Tiling(c, top) && Coalesced(c)
    requires Live(b) == Live(c) && s in b
    ensures s in c && c[s] == b[s]
  {
    hide Pow2, Aligned, Buddy, Parent, NoLive, Coalesced, Live;
    BlocksApart(b, top, s, s);
    var l := b[s].level;
    if b[s].free {
      FreeIffMaximal(b, top, s, l);
      SameLiveSameNoLive(b, c, s, l);
      if l < UP && NoLive(c, Parent(s, l), l + 1) {
        SameLiveSameNoLive(c, b, Parent(s, l), l + 1);
      }
      FreeIffMaximal(c, top, s, l);
    } else {
      LiveBlock(b, c, s);
    }
  }

  lemma LiveBlock(b: Blocks, c: Blocks, s: nat)
    requires Live(b) == Live(c) && s in b && !b[s].free
    ensures s in c && c[s] == b[s]
  {
    assert s in Live(b) && Live(b)[s] == b[s].level;
    assert s in Live(c) && Live(c)[s] == c[s].level;
  }

  /** When only the reserved block of 2^DIV at index 0 is live, the free blocks are its
      buddies on the way up in the first chunk and the other chunks whole. */
  lemma OnlyReservedLeft(b: Blocks, top: nat, s: nat, l: nat)
    requires Tiling(b, top) && Coalesced(b) && Live(b) == map[0 := DIV]
    requires LOW <= l <= UP && Aligned(s, l) && s + Pow2(l) <= top
    ensures IsFree(b, s, l) <==> (DIV <= l < UP && s == Pow2(l)) || (l == UP && s > 0)
  {
    hide Pow2, Aligned, Buddy, Parent, NoLive, Coalesced, Live;
    FreeIffMaximal(b, top, s, l);
    ReservedOnly(b, s, l);
    ReservedOnly(b, Parent(s, l), l + 1);
    BuddyFacts(s, l);
    Pow2Double(l);
    if s > 0 { AlignedFromZero(s, l); }
    if Parent(s, l) > 0 { AlignedFromZero(Parent(s, l), l + 1); }
    if l < DIV {
      Pow2Aligned(l + 1, DIV);
      if Parent(s, l) < Pow2(DIV) { AlignedGap(Parent(s, l), Pow2(DIV), l + 1); }
    } else {
      Pow2Mono(DIV, l);
    }
  }

  lemma Pow2Aligned(l: nat, m: nat)
    requires l <= m
    ensures Aligned(Pow2(m), l)
  {
    Pow2IsMultiple(l, m);
  }

  lemma AlignedFromZero(s: nat, l: nat)
    requires Aligned(s, l) && s > 0
    ensures s >= Pow2(l)
  {
    assert 0 == 0 * Pow2(l);
    MultipleGap(0, s, Pow2(l));
  }

  lemma ReservedOnly(b: Blocks, s: nat, l: nat)
    requires Live(b) == map[0 := DIV]
    ensures NoLive(b, s, l) <==> Pow2(DIV) <= s
  {
    assert 0 in Live(b);
    assert 0 in b && !b[0].free && b[0].level == DIV;
    forall t | t in b && !b[t].free
      ensures t == 0
    {
      assert t in Live(b);
    }
  }
}
