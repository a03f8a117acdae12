/**
 * Dynamic adjacency lists read remotely under a lease (core/gstore.hpp, DYNAMIC_GSTORE).
 *
 * A server grows the edge list of a key in place, or moves it to a larger block; remote
 * clients read the key's pointer from the hash table, may cache it for the length of a
 * lease, and later read the whole block.  The last cell of a block holds a size flag, by
 * which a client tells a block that no longer belongs to its pointer.
 *
 * The model is a step machine: every store of the server's code is a step of its own, and
 * steps of different keys and clients interleave freely.  Hypotheses: one clock; reading a
 * pointer and stamping its lease is one step; reading a block is one step, taken before the
 * pointer's lease runs out.
 */
module DynStore {
  import opened BuddyTiling
  import FreeLists
  import BuddyMalloc

  // ---- block sizes in edges ----

  // sizeof(edge_t)
  const EDGE: nat := 4

  /** The level the allocator picks for size bytes, searching up from level l. */
  function LevelFrom(size: nat, l: nat): (level: nat)
    requires l > LOW ==> Pow2(l - 1) < size + FreeLists.HEADER
    requires l >= LOW
    ensures BuddyMalloc.IsLevelFor(size, level)
    decreases size + FreeLists.HEADER - Pow2(l)
  {
    if size + FreeLists.HEADER <= Pow2(l) then l else LevelFrom(size, l + 1)
  }

  /** Capacity in edges of the block that is allocated for n edges. */
  function BlkSz(n: nat): nat {
    (Pow2(LevelFrom(n * EDGE, LOW)) - FreeLists.HEADER) / EDGE
  }

  lemma Pow2ByEdge(l: nat)
    requires l >= LOW
    ensures Pow2(l) % EDGE == 0 && Pow2(l) >= FreeLists.HEADER
    decreases l
  {
    if l > LOW { Pow2ByEdge(l - 1); } else { assert Pow2(4) == 16; }
  }

  lemma BlkSzHolds(n: nat)
    ensures BlkSz(n) >= n
  {
    hide Pow2;
    Pow2ByEdge(LevelFrom(n * EDGE, LOW));
  }

  /** All sizes that fit a block put the flag in the same, last, cell. */
  lemma BlkSzStable(n: nat, m: nat)
    requires n <= m <= BlkSz(n)
    ensures BlkSz(m) == BlkSz(n)
  {
    hide Pow2, BuddyMalloc.IsLevelFor;
    var l, k := LevelFrom(n * EDGE, LOW), LevelFrom(m * EDGE, LOW);
    LevelBounds(n * EDGE, l);
    LevelBounds(m * EDGE, k);
    Pow2ByEdge(l);
    if l < k { Pow2Mono(l, k - 1); }
    if k < l { Pow2Mono(k, l - 1); }
  }

  lemma LevelBounds(size: nat, l: nat)
    requires BuddyMalloc.IsLevelFor(size, l)
    ensures LOW <= l && size + FreeLists.HEADER <= Pow2(l) && (l > LOW ==> Pow2(l - 1) < size + FreeLists.HEADER)
  {
  }

  // ---- states ----

  type Key = nat

  // 1 << NBITS_SIZE: no size ever has this value
  const INVALID: nat := 0x1000_0000

  /** The allocator's own list heads occupy the cells below this index. */
  const RESERVED: nat := 1024

  datatype Ptr = Ptr(size: nat, off: nat)

  /** A pointer some client holds, and when its lease ends. */
  datatype Item = Item(key: Key, ptr: Ptr, expire: nat)

  datatype Status = Fresh | Current | Retired

  /** A block the edge allocator has handed out and not got back. */
  datatype Blk = Blk(cap: nat, key: Key, status: Status)

  /** How far the insertion under way for a key has got. */
  datatype Phase =
    | Idle
    | First(v: nat, off: nat, stored: bool)
    | Grow(v: nat, stored: bool)
    | Move(v: nat, off: nat, stage: nat)
    | Left(was: nat)

  datatype Pending = Pending(off: nat, expire: nat)

  datatype State = State(
    mem: seq<nat>,
    now: nat,
    verts: map<Key, Ptr>,
    list: map<Key, seq<nat>>,
    phase: map<Key, Phase>,
    live: map<nat, Blk>,
    pending: seq<Pending>,
    held: set<Item>)

  /** The cell of the size flag for a list of the given size at the given offset. */
  function FlagCell(size: nat, off: nat): nat {
    BlkSzHolds(size + 1);
    off + BlkSz(size + 1) - 1
  }

  // ---- steps of the server ----

  ghost predicate Tick(s: State, s': State) {
    s' == s.(now := s'.now) && s.now <= s'.now
  }

  /** insert_key: the key appears in the table with an empty pointer. */
  ghost predicate PublishKey(s: State, s': State, k: Key) {
    && k !in s.verts
    && s' == s.(verts := s.verts[k := Ptr(0, 0)], list := s.list[k := []], phase := s.phase[k := Idle])
  }

  /** The allocator hands out a block for n edges that overlaps no block in use. */
  ghost predicate CanAlloc(s: State, off: nat, n: nat) {
    && RESERVED <= off && off + BlkSz(n + 1) <= |s.mem|
    && forall b :: b in s.live ==> off + BlkSz(n + 1) <= b || b + s.live[b].cap <= off
  }

  ghost predicate At(s: State, k: Key) {
    k in s.verts && k in s.phase && k in s.list
  }

  ghost predicate FirstAlloc(s: State, s': State, k: Key, v: nat, off: nat) {
    && At(s, k) && s.phase[k] == Idle && s.verts[k].size == 0 && CanAlloc(s, off, 1)
    && FlagCell(1, off) < |s.mem|
    && s' == s.(mem := s.mem[FlagCell(1, off) := 1], phase := s.phase[k := First(v, off, false)],
                live := s.live[off := Blk(BlkSz(2), k, Fresh)])
  }

  ghost predicate FirstStore(s: State, s': State, k: Key) {
    && At(s, k) && s.phase[k].First? && !s.phase[k].stored && s.phase[k].off < |s.mem|
    && s' == s.(mem := s.mem[s.phase[k].off := s.phase[k].v],
                phase := s.phase[k := First(s.phase[k].v, s.phase[k].off, true)])
  }

  ghost predicate FirstPublish(s: State, s': State, k: Key) {
    && At(s, k) && s.phase[k].First? && s.phase[k].stored
    && var ph := s.phase[k];
       s' == s.(verts := s.verts[k := Ptr(1, ph.off)], list := s.list[k := [ph.v]], phase := s.phase[k := Idle],
                live := s.live[ph.off := Blk(BlkSz(2), k, Current)])
  }

  /** The code's test for growing in place. */
  predicate FitsInPlace(size: nat) { BlkSz(size + 1) >= size + 2 }

  ghost predicate GrowFlag(s: State, s': State, k: Key, v: nat) {
    && At(s, k) && s.phase[k] == Idle && 0 < s.verts[k].size && s.verts[k].size + 1 < INVALID
    && FitsInPlace(s.verts[k].size)
    && var p := s.verts[k];
       && FlagCell(p.size + 1, p.off) < |s.mem|
       && s' == s.(mem := s.mem[FlagCell(p.size + 1, p.off) := p.size + 1], phase := s.phase[k := Grow(v, false)])
  }

  ghost predicate GrowStore(s: State, s': State, k: Key) {
    && At(s, k) && s.phase[k].Grow? && !s.phase[k].stored
    && var p := s.verts[k];
       && p.off + p.size < |s.mem|
       && s' == s.(mem := s.mem[p.off + p.size := s.phase[k].v], phase := s.phase[k := Grow(s.phase[k].v, true)])
  }

  ghost predicate GrowPublish(s: State, s': State, k: Key) {
    && At(s, k) && s.phase[k].Grow? && s.phase[k].stored
    && var p := s.verts[k];
       s' == s.(verts := s.verts[k := Ptr(p.size + 1, p.off)], list := s.list[k := s.list[k] + [s.phase[k].v]],
                phase := s.phase[k := Idle])
  }

  ghost predicate MoveAlloc(s: State, s': State, k: Key, v: nat, off: nat) {
    && At(s, k) && s.phase[k] == Idle && 0 < s.verts[k].size && s.verts[k].size + 1 < INVALID
    && !FitsInPlace(s.verts[k].size)
    && var need := s.verts[k].size + 1;
       && CanAlloc(s, off, need)
       && FlagCell(need, off) < |s.mem|
       && s' == s.(mem := s.mem[FlagCell(need, off) := need], phase := s.phase[k := Move(v, off, 1)],
                   live := s.live[off := Blk(BlkSz(need + 1), k, Fresh)])
  }

  /** Copy a range of cells. */
  ghost function Copied(mem: seq<nat>, dst: nat, src: nat, n: nat): (m: seq<nat>)
    requires dst + n <= |mem| && src + n <= |mem|
    ensures |m| == |mem|
  {
    mem[..dst] + mem[src..src + n] + mem[dst + n..]
  }

  ghost predicate MoveCopy(s: State, s': State, k: Key) {
    && At(s, k) && s.phase[k].Move? && s.phase[k].stage == 1
    && var p, ph := s.verts[k], s.phase[k];
       && ph.off + p.size <= |s.mem| && p.off + p.size <= |s.mem|
       && s' == s.(mem := Copied(s.mem, ph.off, p.off, p.size), phase := s.phase[k := Move(ph.v, ph.off, 2)])
  }

  ghost predicate MoveStore(s: State, s': State, k: Key) {
    && At(s, k) && s.phase[k].Move? && s.phase[k].stage == 2
    && var p, ph := s.verts[k], s.phase[k];
       && ph.off + p.size < |s.mem|
       && s' == s.(mem := s.mem[ph.off + p.size := ph.v], phase := s.phase[k := Move(ph.v, ph.off, 3)])
  }

  ghost predicate MoveInvalidate(s: State, s': State, k: Key) {
    && At(s, k) && s.phase[k].Move? && s.phase[k].stage == 3
    && var p, ph := s.verts[k], s.phase[k];
       && FlagCell(p.size, p.off) < |s.mem|
       && s' == s.(mem := s.mem[FlagCell(p.size, p.off) := INVALID], phase := s.phase[k := Move(ph.v, ph.off, 4)])
  }

  ghost predicate MovePublish(s: State, s': State, k: Key) {
    && At(s, k) && s.phase[k].Move? && s.phase[k].stage == 4 && s.verts[k].off in s.live
    && var p, ph := s.verts[k], s.phase[k];
       s' == s.(verts := s.verts[k := Ptr(p.size + 1, ph.off)], list := s.list[k := s.list[k] + [ph.v]],
                phase := s.phase[k := Left(p.off)],
                live := s.live[p.off := Blk(s.live[p.off].cap, k, Retired)][ph.off := Blk(BlkSz(p.size + 2), k, Current)])
  }

  ghost predicate MovePend(s: State, s': State, k: Key, lease: nat) {
    && At(s, k) && s.phase[k].Left?
    && s' == s.(pending := s.pending + [Pending(s.phase[k].was, s.now + lease)], phase := s.phase[k := Idle])
  }

  /** The oldest pending block goes back to the allocator once its time is over. */
  ghost predicate SweepFree(s: State, s': State) {
    && s.pending != [] && s.pending[0].expire <= s.now
    && s' == s.(live := s.live - {s.pending[0].off}, pending := s.pending[1..])
  }

  /** The allocator writes its headers into memory that is not handed out. */
  ghost predicate Scribble(s: State, s': State, a: nat, x: nat) {
    && RESERVED <= a < |s.mem| && (forall b :: b in s.live ==> a < b || b + s.live[b].cap <= a)
    && s' == s.(mem := s.mem[a := x])
  }

  // ---- steps of the clients ----

  /** A client reads a key's pointer from the table and starts a lease on it. */
  ghost predicate ReadPointer(s: State, s': State, k: Key, lease: nat) {
    && k in s.verts
    && s' == s.(held := s.held + {Item(k, s.verts[k], s.now + lease)})
  }

  ghost predicate InsertStep(s: State, s': State, k: Key, lease: nat) {
    || PublishKey(s, s', k)
    || (exists v, off :: FirstAlloc(s, s', k, v, off))
    || FirstStore(s, s', k) || FirstPublish(s, s', k)
    || (exists v :: GrowFlag(s, s', k, v))
    || GrowStore(s, s', k) || GrowPublish(s, s', k)
    || (exists v, off :: MoveAlloc(s, s', k, v, off))
    || MoveCopy(s, s', k) || MoveStore(s, s', k) || MoveInvalidate(s, s', k) || MovePublish(s, s', k)
    || MovePend(s, s', k, lease)
  }

  ghost predicate Next(s: State, s': State, lease: nat) {
    || Tick(s, s')
    || (exists k :: InsertStep(s, s', k, lease))
    || SweepFree(s, s')
    || (exists a, x :: Scribble(s, s', a, x))
    || (exists k :: ReadPointer(s, s', k, lease))
  }

  /** The store as loaded, possibly empty: every key has its list in a block of its own, with the
      size in the flag cell, and no client holds a pointer yet. */
  ghost predicate Init(s: State) {
    && |s.mem| > RESERVED && s.held == {} && s.pending == []
    && s.verts.Keys == s.list.Keys == s.phase.Keys
    && Separate(s)
    && (forall k :: k in s.verts ==> s.phase[k] == Idle && LoadedKey(s, k))
    && (forall b :: b in s.live ==> s.live[b].key in s.verts && s.verts[s.live[b].key].off == b)
  }

  ghost predicate LoadedKey(s: State, k: Key)
    requires At(s, k)
  {
    var p := s.verts[k];
    && 0 < |s.list[k]| == p.size < INVALID
    && Owns(s, k, p.off, BlkSz(p.size + 1), Current)
    && Holds(s, p.off, s.list[k]) && Flagged(s, p.off, BlkSz(p.size + 1), p.size)
  }

  lemma InitInv(s: State, lease: nat)
    requires Init(s)
    ensures Inv(s, lease)
  {
    hide Pow2, BlkSz, Separate;
    forall k | k in s.verts
      ensures KeyOk(s, k)
    {
      assert LoadedKey(s, k);
    }
    forall b | b in s.live
      ensures BlockOk(s, b)
    {
      assert LoadedKey(s, s.live[b].key);
    }
  }

  // ---- a client's read ----

  /** The check made on a block that was read through an unexpired pointer. */
  ghost predicate Passes(s: State, i: Item) {
    && i in s.held && s.now < i.expire
    && FlagCell(i.ptr.size, i.ptr.off) < |s.mem| && i.ptr.off + i.ptr.size <= |s.mem|
    && s.mem[FlagCell(i.ptr.size, i.ptr.off)] == i.ptr.size
  }

  ghost function ReadList(s: State, i: Item): seq<nat>
    requires i.ptr.off + i.ptr.size <= |s.mem|
  {
    s.mem[i.ptr.off..i.ptr.off + i.ptr.size]
  }

  // ---- invariant ----

  ghost predicate InBlock(s: State, b: nat, c: nat) { b in s.live && b <= c < b + s.live[b].cap }

  ghost predicate BlockFits(s: State, b: nat)
    requires b in s.live
  {
    RESERVED <= b && 0 < s.live[b].cap && b + s.live[b].cap <= |s.mem|
  }

  ghost predicate Apart(s: State, a: nat, b: nat)
    requires a in s.live && b in s.live
  {
    a == b || a + s.live[a].cap <= b || b + s.live[b].cap <= a
  }

  ghost predicate Separate(s: State) {
    && (forall b :: b in s.live ==> BlockFits(s, b))
    && (forall a, b :: a in s.live && b in s.live ==> Apart(s, a, b))
  }

  ghost predicate Owns(s: State, k: Key, b: nat, cap: nat, st: Status) {
    b in s.live && s.live[b] == Blk(cap, k, st) && b + cap <= |s.mem| && cap > 0
  }

  /** Cells b .. b + n hold the list l. */
  ghost predicate Holds(s: State, b: nat, l: seq<nat>) {
    b + |l| <= |s.mem| && forall j :: 0 <= j < |l| ==> s.mem[b + j] == l[j]
  }

  ghost predicate Flagged(s: State, b: nat, cap: nat, x: nat) {
    cap > 0 && b + cap <= |s.mem| && s.mem[b + cap - 1] == x
  }

  ghost function FlagOf(ph: Phase, size: nat): nat {
    if ph.Grow? then size + 1 else if ph.Move? && ph.stage >= 4 then INVALID else size
  }

  /** The block being prepared for a key with a list of the given size. */
  ghost predicate FreshOk(s: State, k: Key)
    requires At(s, k)
  {
    var p, ph := s.verts[k], s.phase[k];
    match ph
    case First(v, off, stored) =>
      && Owns(s, k, off, BlkSz(2), Fresh) && Flagged(s, off, BlkSz(2), 1) && (stored ==> Holds(s, off, [v]))
    case Move(v, off, stage) =>
      && Owns(s, k, off, BlkSz(p.size + 2), Fresh) && Flagged(s, off, BlkSz(p.size + 2), p.size + 1)
      && off != p.off && 1 <= stage <= 4
      && (stage >= 2 ==> Holds(s, off, s.list[k])) && (stage >= 3 ==> Holds(s, off, s.list[k] + [v]))
    case _ => true
  }

  ghost predicate KeyOk(s: State, k: Key)
    requires At(s, k)
  {
    var p, ph := s.verts[k], s.phase[k];
    && |s.list[k]| == p.size < INVALID
    && FreshOk(s, k)
    && (p.size == 0 ==> p.off == 0 && (ph == Idle || ph.First?))
    && (p.size > 0 ==>
      && !ph.First?
      && Owns(s, k, p.off, BlkSz(p.size + 1), Current)
      && Holds(s, p.off, s.list[k])
      && Flagged(s, p.off, BlkSz(p.size + 1), FlagOf(ph, p.size))
      && (!ph.Idle? ==> p.size + 1 < INVALID || ph.Left?)
      && (ph.Grow? ==> FitsInPlace(p.size) && (ph.stored ==> Holds(s, p.off, s.list[k] + [ph.v])))
      && (ph.Left? ==> ph.was in s.live && s.live[ph.was].key == k && s.live[ph.was].status == Retired
                       && ph.was != p.off))
  }

  ghost predicate BlockOk(s: State, b: nat)
    requires b in s.live
  {
    var k := s.live[b].key;
    && At(s, k)
    && match s.live[b].status
       case Fresh => (s.phase[k].First? || s.phase[k].Move?) && s.phase[k].off == b
       case Current => s.verts[k].off == b && s.verts[k].size > 0
       case Retired => Flagged(s, b, s.live[b].cap, INVALID)
  }

  /** An unexpired pointer leads to a block that still belongs to its key. */
  ghost predicate ItemOk(s: State, i: Item) {
    && i.key in s.verts
    && (i.ptr.size == 0 ==> i.ptr.off == 0)
    && (i.ptr.size > 0 && s.now < i.expire ==>
      && i.ptr.off in s.live
      && s.live[i.ptr.off].key == i.key
      && s.live[i.ptr.off].cap == BlkSz(i.ptr.size + 1)
      && s.live[i.ptr.off].status != Fresh
      && i.ptr.size < INVALID
      && (s.live[i.ptr.off].status == Current ==> i.ptr.size <= s.verts[i.key].size))
  }

  /** A block waits in the queue at least as long as any pointer to it is usable. */
  ghost predicate PendingOk(s: State, q: Pending) {
    && q.off in s.live && s.live[q.off].status == Retired
    && (forall i :: i in s.held && i.ptr.off == q.off && i.ptr.size > 0 ==> i.expire <= q.expire)
    && (forall k :: k in s.phase && s.phase[k].Left? ==> s.phase[k].was != q.off)
  }

  ghost predicate Inv(s: State, lease: nat) {
    && |s.mem| > RESERVED
    && s.verts.Keys == s.list.Keys == s.phase.Keys
    && Separate(s)
    && (forall k :: k in s.verts ==> KeyOk(s, k))
    && (forall b :: b in s.live ==> BlockOk(s, b))
    && (forall i :: i in s.held ==> ItemOk(s, i))
    && (forall i :: i in s.held ==> i.expire <= s.now + lease)
    && (forall j :: 0 <= j < |s.pending| ==> PendingOk(s, s.pending[j]))
    && (forall i, j :: 0 <= i < j < |s.pending| ==> s.pending[i].off != s.pending[j].off)
  }

  // ---- what a validated read returns ----

  /** Every read through a non-empty pointer that passes the size check returns exactly the
      key's list at that moment. */
  lemma ValidatedReadIsExact(s: State, i: Item, lease: nat)
    requires Inv(s, lease) && Passes(s, i) && i.ptr.size > 0
    ensures i.key in s.list && ReadList(s, i) == s.list[i.key]
  {
    hide Pow2, BlkSz;
    assert ItemOk(s, i) && KeyOk(s, i.key) && BlockOk(s, i.ptr.off);
    BlkSzHolds(i.ptr.size + 1);
  }

  // ---- steps keep the invariant ----

  /** Only key k, its blocks and its cells change. */
  ghost predicate OnlyKey(s: State, s': State, k: Key) {
    && |s'.mem| == |s.mem| && s'.now == s.now && s'.held == s.held && s'.pending == s.pending
    && s'.verts.Keys == s.verts.Keys && s'.list.Keys == s.list.Keys && s'.phase.Keys == s.phase.Keys
    && (forall j :: At(s, j) && j != k ==> s'.verts[j] == s.verts[j] && s'.list[j] == s.list[j] && s'.phase[j] == s.phase[j])
    && (forall b :: b in s.live && s.live[b].key != k ==> b in s'.live && s'.live[b] == s.live[b])
    && (forall b :: b in s'.live && s'.live[b].key != k ==> b in s.live && s'.live[b] == s.live[b])
    && (forall b: nat, c: nat :: InBlock(s, b, c) && s.live[b].key != k && c < |s.mem| ==> s'.mem[c] == s.mem[c])
  }

  lemma SameCells(s: State, s': State, k: Key, b: nat)
    requires Separate(s) && OnlyKey(s, s', k) && b in s.live && s.live[b].key != k
    ensures forall c :: b <= c < b + s.live[b].cap ==> c < |s.mem| && s'.mem[c] == s.mem[c]
  {
    assert BlockFits(s, b);
    forall c | b <= c < b + s.live[b].cap
      ensures c < |s.mem| && s'.mem[c] == s.mem[c]
    {
      assert InBlock(s, b, c);
    }
  }

  /** A key's facts carry over when its table entry, its blocks and their cells do. */
  lemma KeyCarries(s: State, s': State, k: Key)
    requires At(s, k) && At(s', k) && KeyOk(s, k) && |s'.mem| == |s.mem|
    requires s'.verts[k] == s.verts[k] && s'.list[k] == s.list[k] && s'.phase[k] == s.phase[k]
    requires forall b :: b in s.live && s.live[b].key == k && (s.live[b].status != Retired || s.phase[k] == Left(b)) ==>
      b in s'.live && s'.live[b] == s.live[b]
    requires forall b: nat, c: nat :: InBlock(s, b, c) && s.live[b].key == k && s.live[b].status != Retired && c < |s.mem| ==>
      s'.mem[c] == s.mem[c]
    ensures KeyOk(s', k)
  {
    hide Pow2, BlkSz;
    var p, ph := s.verts[k], s.phase[k];
    BlkSzHolds(2);
    BlkSzHolds(p.size + 1);
    BlkSzHolds(p.size + 2);
    if p.size > 0 { assert forall c :: p.off <= c < p.off + BlkSz(p.size + 1) ==> InBlock(s, p.off, c); }
    if ph.First? { assert forall c :: ph.off <= c < ph.off + BlkSz(2) ==> InBlock(s, ph.off, c); }
    if ph.Move? { assert forall c :: ph.off <= c < ph.off + BlkSz(p.size + 2) ==> InBlock(s, ph.off, c); }
  }

  lemma OtherKeyOk(s: State, s': State, k: Key, j: Key)
    requires Separate(s) && OnlyKey(s, s', k) && At(s, j) && KeyOk(s, j) && j != k
    ensures At(s', j) && KeyOk(s', j)
  {
    hide Pow2, BlkSz, Separate, KeyOk;
    OnlyKeyFacts(s, s', k, j);
    KeyCarries(s, s', j);
  }

  lemma OnlyKeyFacts(s: State, s': State, k: Key, j: Key)
    requires OnlyKey(s, s', k) && At(s, j) && j != k
    ensures At(s', j) && s'.verts[j] == s.verts[j] && s'.list[j] == s.list[j] && s'.phase[j] == s.phase[j]
    ensures |s'.mem| == |s.mem|
  {
  }

  /** A step that touches one key only has to show that key, its blocks, its pointers and
      its retired blocks in order. */
  lemma OnlyKeyInv(s: State, s': State, k: Key, lease: nat)
    requires Inv(s, lease) && At(s, k) && OnlyKey(s, s', k)
    requires Separate(s') && At(s', k) && KeyOk(s', k)
    requires forall b :: b in s'.live && s'.live[b].key == k ==> BlockOk(s', b)
    requires forall i :: i in s.held && i.key == k ==> ItemOk(s', i)
    requires forall j :: 0 <= j < |s.pending| ==> PendingOk(s', s.pending[j])
    ensures Inv(s', lease)
  {
    hide Pow2, BlkSz, KeyOk, Separate;
    forall j | j in s'.verts
      ensures KeyOk(s', j)
    {
      if j != k { OtherKeyOk(s, s', k, j); }
    }
    forall b | b in s'.live
      ensures BlockOk(s', b)
    {
      if s'.live[b].key != k {
        assert BlockOk(s, b);
        OtherBlockOk(s, s', k, b);
      }
    }
    forall i | i in s'.held
      ensures ItemOk(s', i)
    {
      if i.key != k {
        assert ItemOk(s, i);
        OtherItemOk(s, s', k, i);
      }
    }
  }

  lemma OtherBlockOk(s: State, s': State, k: Key, b: nat)
    requires Separate(s) && OnlyKey(s, s', k) && b in s.live && s.live[b].key != k && BlockOk(s, b)
    ensures b in s'.live && BlockOk(s', b)
  {
    hide Pow2, BlkSz, Separate;
    SameCells(s, s', k, b);
  }

  lemma OtherItemOk(s: State, s': State, k: Key, i: Item)
    requires OnlyKey(s, s', k) && i.key != k && ItemOk(s, i) && s.verts.Keys == s.list.Keys == s.phase.Keys
    ensures ItemOk(s', i)
  {
    hide Pow2, BlkSz;
    assert At(s, i.key);
  }

  // ---- the steps of one insertion ----

  /** One store into a cell of k's own block, with a change of k's phase. */
  lemma StoreIsOnlyKey(s: State, s': State, k: Key, b: nat, a: nat, x: nat, ph: Phase)
    requires Separate(s) && At(s, k) && InBlock(s, b, a) && s.live[b].key == k && a < |s.mem|
    requires s' == s.(mem := s.mem[a := x], phase := s.phase[k := ph])
    ensures OnlyKey(s, s', k) && Separate(s')
    ensures forall c: nat, d: nat :: InBlock(s, c, d) && c != b && d < |s.mem| ==> s'.mem[d] == s.mem[d]
  {
    hide Pow2, BlkSz;
    forall c: nat, d: nat | InBlock(s, c, d) && c != b && d < |s.mem|
      ensures s'.mem[d] == s.mem[d]
    {
      assert Apart(s, b, c);
    }
    SeparateSame(s, s');
  }

  lemma SeparateSame(s: State, s': State)
    requires Separate(s) && |s'.mem| == |s.mem| && s'.live.Keys <= s.live.Keys
    requires forall b :: b in s'.live ==> s'.live[b].cap == s.live[b].cap
    ensures Separate(s')
  {
    forall b | b in s'.live
      ensures BlockFits(s', b)
    {
      assert BlockFits(s, b);
    }
    forall a, b | a in s'.live && b in s'.live
      ensures Apart(s', a, b)
    {
      assert Apart(s, a, b);
    }
  }

  /** Storing into k's own block b: what is left to show concerns k and b alone. */
  lemma StoreInv(s: State, s': State, k: Key, b: nat, a: nat, x: nat, ph: Phase, lease: nat)
    requires Inv(s, lease) && At(s, k) && InBlock(s, b, a) && s.live[b].key == k && a < |s.mem|
    requires s' == s.(mem := s.mem[a := x], phase := s.phase[k := ph])
    requires KeyOk(s', k) && BlockOk(s', b) && !ph.Left? && !s.phase[k].Left?
    requires s.phase[k].First? || s.phase[k].Move? ==> (ph.First? || ph.Move?) && ph.off == s.phase[k].off
    ensures Inv(s', lease)
  {
    hide Pow2, BlkSz, KeyOk, Separate;
    StoreIsOnlyKey(s, s', k, b, a, x, ph);
    forall c | c in s'.live && s'.live[c].key == k
      ensures BlockOk(s', c)
    {
      assert BlockOk(s, c);
      if c != b && s.live[c].status == Retired { LastCell(s, c); }
    }
    QuietItems(s, s', k, lease);
    OnlyKeyInv(s, s', k, lease);
  }

  lemma LastCell(s: State, b: nat)
    requires Separate(s) && b in s.live
    ensures s.live[b].cap > 0 && InBlock(s, b, b + s.live[b].cap - 1) && b + s.live[b].cap <= |s.mem|
  {
    assert BlockFits(s, b);
  }

  lemma GrowFlagKey(s: State, s': State, k: Key, v: nat, lease: nat)
    requires Inv(s, lease) && GrowFlag(s, s', k, v)
    ensures InBlock(s, s.verts[k].off, FlagCell(s.verts[k].size + 1, s.verts[k].off)) && s.live[s.verts[k].off].key == k && FlagCell(s.verts[k].size + 1, s.verts[k].off) < |s.mem|
    ensures At(s', k) && KeyOk(s', k) && BlockOk(s', s.verts[k].off) && !s.phase[k].Left?
  {
    hide Pow2, BlkSz, ItemOk, PendingOk;
    var p := s.verts[k];
    assert KeyOk(s, k) && BlockOk(s, p.off) && BlockFits(s, p.off);
    BlkSzHolds(p.size + 2);
    BlkSzStable(p.size + 1, p.size + 2);
  }

  lemma GrowFlagInv(s: State, s': State, k: Key, v: nat, lease: nat)
    requires Inv(s, lease) && GrowFlag(s, s', k, v)
    ensures Inv(s', lease)
  {
    hide Pow2, BlkSz, Separate, KeyOk, BlockOk, ItemOk, PendingOk;
    GrowFlagKey(s, s', k, v, lease);
    StoreInv(s, s', k, s.verts[k].off, FlagCell(s.verts[k].size + 1, s.verts[k].off), s.verts[k].size + 1, Grow(v, false), lease);
  }

  lemma GrowStoreKey(s: State, s': State, k: Key, lease: nat)
    requires Inv(s, lease) && GrowStore(s, s', k)
    ensures InBlock(s, s.verts[k].off, s.verts[k].off + s.verts[k].size) && s.live[s.verts[k].off].key == k && s.verts[k].off + s.verts[k].size < |s.mem|
    ensures At(s', k) && KeyOk(s', k) && BlockOk(s', s.verts[k].off) && !s.phase[k].Left?
  {
    hide Pow2, BlkSz, ItemOk, PendingOk;
    var p := s.verts[k];
    assert KeyOk(s, k) && BlockOk(s, p.off) && BlockFits(s, p.off);
  }

  lemma GrowStoreInv(s: State, s': State, k: Key, lease: nat)
    requires Inv(s, lease) && GrowStore(s, s', k)
    ensures Inv(s', lease)
  {
    hide Pow2, BlkSz, Separate, KeyOk, BlockOk, ItemOk, PendingOk;
    GrowStoreKey(s, s', k, lease);
    StoreInv(s, s', k, s.verts[k].off, s.verts[k].off + s.verts[k].size, s.phase[k].v, Grow(s.phase[k].v, true), lease);
  }

  lemma FirstStoreKey(s: State, s': State, k: Key, lease: nat)
    requires Inv(s, lease) && FirstStore(s, s', k)
    ensures InBlock(s, s.phase[k].off, s.phase[k].off) && s.live[s.phase[k].off].key == k && s.phase[k].off < |s.mem|
    ensures At(s', k) && KeyOk(s', k) && BlockOk(s', s.phase[k].off) && !s.phase[k].Left?
  {
    hide Pow2, BlkSz, ItemOk, PendingOk;
    assert KeyOk(s, k) && BlockOk(s, s.phase[k].off) && BlockFits(s, s.phase[k].off);
    BlkSzHolds(2);
  }

  lemma FirstStoreInv(s: State, s': State, k: Key, lease: nat)
    requires Inv(s, lease) && FirstStore(s, s', k)
    ensures Inv(s', lease)
  {
    hide Pow2, BlkSz, Separate, KeyOk, BlockOk, ItemOk, PendingOk;
    FirstStoreKey(s, s', k, lease);
    StoreInv(s, s', k, s.phase[k].off, s.phase[k].off, s.phase[k].v, First(s.phase[k].v, s.phase[k].off, true), lease);
  }

  /** A store into the block being prepared leaves the current block alone. */
  lemma FreshStore(s: State, s': State, k: Key, a: nat, x: nat)
    requires Separate(s) && At(s, k) && KeyOk(s, k) && s.phase[k].Move? && s.verts[k].size > 0
    requires InBlock(s, s.phase[k].off, a) && a < |s.mem| && s'.mem == s.mem[a := x]
    ensures forall c :: s.verts[k].off <= c < s.verts[k].off + BlkSz(s.verts[k].size + 1) ==>
      c < |s.mem| && s'.mem[c] == s.mem[c]
  {
    hide Pow2, BlkSz;
    assert Apart(s, s.verts[k].off, s.phase[k].off);
  }

  lemma MoveStoreKey(s: State, s': State, k: Key, lease: nat)
    requires Inv(s, lease) && MoveStore(s, s', k)
    ensures InBlock(s, s.phase[k].off, s.phase[k].off + s.verts[k].size) && s.live[s.phase[k].off].key == k && s.phase[k].off + s.verts[k].size < |s.mem|
    ensures At(s', k) && KeyOk(s', k) && BlockOk(s', s.phase[k].off) && !s.phase[k].Left?
  {
    hide Pow2, BlkSz, ItemOk, PendingOk, Separate;
    var p, ph := s.verts[k], s.phase[k];
    assert KeyOk(s, k) && BlockOk(s, ph.off);
    BlkSzHolds(p.size + 2);
    BlkSzHolds(p.size + 1);
    FreshStore(s, s', k, ph.off + p.size, ph.v);
  }

  lemma MoveStoreInv(s: State, s': State, k: Key, lease: nat)
    requires Inv(s, lease) && MoveStore(s, s', k)
    ensures Inv(s', lease)
  {
    hide Pow2, BlkSz, Separate, KeyOk, BlockOk, ItemOk, PendingOk;
    MoveStoreKey(s, s', k, lease);
    StoreInv(s, s', k, s.phase[k].off, s.phase[k].off + s.verts[k].size, s.phase[k].v, Move(s.phase[k].v, s.phase[k].off, 3), lease);
  }

  lemma MoveInvalidateKey(s: State, s': State, k: Key, lease: nat)
    requires Inv(s, lease) && MoveInvalidate(s, s', k)
    ensures InBlock(s, s.verts[k].off, FlagCell(s.verts[k].size, s.verts[k].off)) && s.live[s.verts[k].off].key == k && FlagCell(s.verts[k].size, s.verts[k].off) < |s.mem|
    ensures At(s', k) && KeyOk(s', k) && BlockOk(s', s.verts[k].off) && !s.phase[k].Left?
  {
    hide Pow2, BlkSz, ItemOk, PendingOk, Separate;
    var p, ph := s.verts[k], s.phase[k];
    assert KeyOk(s, k) && BlockOk(s, p.off);
    BlkSzHolds(p.size + 1);
    BlkSzHolds(p.size + 2);
    BlocksOf(s, p.off, ph.off);
    NoRoomForFlag(p.size);
  }

  lemma MoveInvalidateInv(s: State, s': State, k: Key, lease: nat)
    requires Inv(s, lease) && MoveInvalidate(s, s', k)
    ensures Inv(s', lease)
  {
    hide Pow2, BlkSz, Separate, KeyOk, BlockOk, ItemOk, PendingOk;
    MoveInvalidateKey(s, s', k, lease);
    StoreInv(s, s', k, s.verts[k].off, FlagCell(s.verts[k].size, s.verts[k].off), INVALID, Move(s.phase[k].v, s.phase[k].off, 4), lease);
  }

  lemma NoRoomForFlag(size: nat)
    ensures BlkSz(size + 1) - 1 >= size
  {
    BlkSzHolds(size + 1);
  }

  lemma BlocksOf(s: State, a: nat, b: nat)
    requires Separate(s) && a in s.live && b in s.live
    ensures Apart(s, a, b) && BlockFits(s, a) && BlockFits(s, b)
  {
  }

  lemma MoveCopyKey(s: State, s': State, k: Key)
    requires Separate(s) && At(s, k) && KeyOk(s, k) && MoveCopy(s, s', k)
    ensures At(s', k) && KeyOk(s', k)
  {
    hide Pow2, BlkSz, Separate;
    var p, ph := s.verts[k], s.phase[k];
    BlkSzHolds(p.size + 2);
    BlkSzHolds(p.size + 1);
    BlocksOf(s, p.off, ph.off);
    CopyCells(s.mem, ph.off, p.off, p.size);
  }

  lemma MoveCopyInv(s: State, s': State, k: Key, lease: nat)
    requires Inv(s, lease) && MoveCopy(s, s', k)
    ensures Inv(s', lease)
  {
    hide Pow2, BlkSz, Separate, KeyOk;
    var p, ph := s.verts[k], s.phase[k];
    MoveCopyKey(s, s', k);
    MoveFacts(s, k);
    CopyCells(s.mem, ph.off, p.off, p.size);
    CopyIsOnlyKey(s, s', k, ph.off, p.size);
    SeparateSame(s, s');
    forall c | c in s'.live && s'.live[c].key == k
      ensures BlockOk(s', c)
    {
      assert BlockOk(s, c);
      if s.live[c].status == Retired { LastCell(s, c); BlocksOf(s, c, ph.off); }
    }
    QuietItems(s, s', k, lease);
    OnlyKeyInv(s, s', k, lease);
  }

  lemma MoveFacts(s: State, k: Key)
    requires At(s, k) && KeyOk(s, k) && s.phase[k].Move?
    ensures s.verts[k].size > 0 && s.phase[k].off in s.live
    ensures s.live[s.phase[k].off] == Blk(BlkSz(s.verts[k].size + 2), k, Fresh) && s.verts[k].size < BlkSz(s.verts[k].size + 2)
  {
    BlkSzHolds(s.verts[k].size + 2);
  }

  lemma CopyCells(mem: seq<nat>, dst: nat, src: nat, n: nat)
    requires dst + n <= |mem| && src + n <= |mem|
    ensures forall c :: 0 <= c < |mem| ==>
      Copied(mem, dst, src, n)[c] == if dst <= c < dst + n then mem[src + (c - dst)] else mem[c]
  {
  }

  lemma CopyIsOnlyKey(s: State, s': State, k: Key, b: nat, n: nat)
    requires Separate(s) && At(s, k) && b in s.live && s.live[b].key == k && n <= s.live[b].cap
    requires |s'.mem| == |s.mem| && k in s'.phase && s' == s.(mem := s'.mem, phase := s.phase[k := s'.phase[k]])
    requires forall c :: 0 <= c < |s.mem| && !(b <= c < b + n) ==> s'.mem[c] == s.mem[c]
    ensures OnlyKey(s, s', k)
  {
    forall c: nat, d: nat | InBlock(s, c, d) && s.live[c].key != k && d < |s.mem|
      ensures s'.mem[d] == s.mem[d]
    {
      assert Apart(s, b, c);
    }
  }

  /** Steps that leave pointers, existing blocks and the queue alone keep what is known of them. */
  lemma QuietItems(s: State, s': State, k: Key, lease: nat)
    requires Inv(s, lease) && k in s.phase && k in s'.phase && !s'.phase[k].Left?
    requires s' == s.(mem := s'.mem, live := s'.live, phase := s'.phase) && s'.phase == s.phase[k := s'.phase[k]]
    requires forall b :: b in s.live ==> b in s'.live && s'.live[b] == s.live[b]
    ensures forall i :: i in s.held && i.key == k ==> ItemOk(s', i)
    ensures forall j :: 0 <= j < |s.pending| ==> PendingOk(s', s.pending[j])
  {
    hide Pow2, BlkSz, KeyOk, Separate, BlockOk;
    forall i | i in s.held && i.key == k
      ensures ItemOk(s', i)
    {
      assert ItemOk(s, i);
    }
    forall j | 0 <= j < |s.pending|
      ensures PendingOk(s', s.pending[j])
    {
      assert PendingOk(s, s.pending[j]);
    }
  }

  /** A block for key k appears, with its flag set; no pointer can lead to it yet. */
  lemma AllocInv(s: State, s': State, k: Key, off: nat, n: nat, ph: Phase, lease: nat)
    requires Inv(s, lease) && At(s, k) && s.phase[k] == Idle && CanAlloc(s, off, n) && FlagCell(n, off) < |s.mem|
    requires s' == s.(mem := s.mem[FlagCell(n, off) := n], phase := s.phase[k := ph],
                      live := s.live[off := Blk(BlkSz(n + 1), k, Fresh)])
    requires (ph.First? || ph.Move?) && ph.off == off && At(s', k) && KeyOk(s', k)
    ensures Inv(s', lease)
  {
    hide Pow2, BlkSz, KeyOk, Separate, CanAlloc;
    BlkSzHolds(n + 1);
    AllocSeparate(s, s', k, off, n, ph);
    forall c | c in s'.live && s'.live[c].key == k
      ensures BlockOk(s', c)
    {
      if c != off {
        assert BlockOk(s, c);
        if s.live[c].status == Retired { LastCell(s, c); }
      }
    }
    QuietItems(s, s', k, lease);
    OnlyKeyInv(s, s', k, lease);
  }

  lemma AllocSeparate(s: State, s': State, k: Key, off: nat, n: nat, ph: Phase)
    requires Separate(s) && At(s, k) && CanAlloc(s, off, n) && FlagCell(n, off) < |s.mem|
    requires s' == s.(mem := s.mem[FlagCell(n, off) := n], phase := s.phase[k := ph],
                      live := s.live[off := Blk(BlkSz(n + 1), k, Fresh)])
    ensures off !in s.live && Separate(s') && OnlyKey(s, s', k)
    ensures forall c: nat, d: nat :: InBlock(s, c, d) && d < |s.mem| ==> s'.mem[d] == s.mem[d]
  {
    hide Pow2, BlkSz;
    BlkSzHolds(n + 1);
    assert off in s.live ==> BlockFits(s, off);
    forall b | b in s'.live
      ensures BlockFits(s', b)
    {
      if b != off { assert BlockFits(s, b); }
    }
    forall a, b | a in s'.live && b in s'.live
      ensures Apart(s', a, b)
    {
      if a != off && b != off { assert Apart(s, a, b); }
    }
  }

  lemma FirstAllocKey(s: State, s': State, k: Key, v: nat, off: nat)
    requires At(s, k) && KeyOk(s, k) && FirstAlloc(s, s', k, v, off)
    ensures At(s', k) && KeyOk(s', k)
  {
    hide Pow2, BlkSz;
    BlkSzHolds(2);
  }

  lemma FirstAllocInv(s: State, s': State, k: Key, v: nat, off: nat, lease: nat)
    requires Inv(s, lease) && FirstAlloc(s, s', k, v, off)
    ensures Inv(s', lease)
  {
    hide Pow2, BlkSz, Separate, KeyOk, CanAlloc, BlockOk, ItemOk, PendingOk;
    assert KeyOk(s, k);
    FirstAllocKey(s, s', k, v, off);
    AllocInv(s, s', k, off, 1, First(v, off, false), lease);
  }

  lemma MoveAllocKey(s: State, s': State, k: Key, v: nat, off: nat)
    requires Separate(s) && At(s, k) && KeyOk(s, k) && MoveAlloc(s, s', k, v, off)
    ensures At(s', k) && KeyOk(s', k)
  {
    hide Pow2, BlkSz, Separate;
    var p := s.verts[k];
    BlkSzHolds(p.size + 2);
    BlkSzHolds(p.size + 1);
    AllocSeparate(s, s', k, off, p.size + 1, Move(v, off, 1));
    LastCell(s, p.off);
    assert forall d :: p.off <= d < p.off + BlkSz(p.size + 1) ==> InBlock(s, p.off, d);
  }

  lemma MoveAllocInv(s: State, s': State, k: Key, v: nat, off: nat, lease: nat)
    requires Inv(s, lease) && MoveAlloc(s, s', k, v, off)
    ensures Inv(s', lease)
  {
    hide Pow2, BlkSz, Separate, KeyOk, CanAlloc, FitsInPlace;
    assert KeyOk(s, k);
    MoveAllocKey(s, s', k, v, off);
    AllocInv(s, s', k, off, s.verts[k].size + 1, Move(v, off, 1), lease);
  }

  // ---- the steps that change what the table says ----

  lemma FirstPublishKey(s: State, s': State, k: Key)
    requires At(s, k) && KeyOk(s, k) && FirstPublish(s, s', k)
    ensures At(s', k) && KeyOk(s', k) && s.verts[k].size == 0 && s.phase[k].off in s.live
    ensures s.live[s.phase[k].off] == Blk(BlkSz(2), k, Fresh)
  {
    hide Pow2, BlkSz;
  }

  lemma GrowPublishKey(s: State, s': State, k: Key)
    requires At(s, k) && KeyOk(s, k) && GrowPublish(s, s', k)
    ensures At(s', k) && KeyOk(s', k) && s.verts[k].size > 0
  {
    hide Pow2, BlkSz;
    BlkSzStable(s.verts[k].size + 1, s.verts[k].size + 2);
  }

  lemma MovePublishKey(s: State, s': State, k: Key)
    requires At(s, k) && KeyOk(s, k) && MovePublish(s, s', k)
    ensures At(s', k) && KeyOk(s', k) && s.verts[k].size > 0 && s.verts[k].off in s.live && s.phase[k].off in s.live
    ensures s.live[s.verts[k].off] == Blk(BlkSz(s.verts[k].size + 1), k, Current) && s.verts[k].off != s.phase[k].off
    ensures s.live[s.phase[k].off] == Blk(BlkSz(s.verts[k].size + 2), k, Fresh)
    ensures Flagged(s, s.verts[k].off, BlkSz(s.verts[k].size + 1), INVALID)
  {
    hide Pow2, BlkSz;
  }

  lemma FirstPublishInv(s: State, s': State, k: Key, lease: nat)
    requires Inv(s, lease) && FirstPublish(s, s', k)
    ensures Inv(s', lease)
  {
    hide Pow2, BlkSz, Separate, KeyOk;
    FirstPublishKey(s, s', k);
    SeparateSame(s, s');
    forall c | c in s'.live && s'.live[c].key == k
      ensures BlockOk(s', c)
    {
      assert BlockOk(s, c);
    }
    PublishedItems(s, s', k, lease);
    OnlyKeyInv(s, s', k, lease);
  }

  lemma GrowPublishOnly(s: State, s': State, k: Key)
    requires Separate(s) && At(s, k) && KeyOk(s, k) && s.verts.Keys == s.list.Keys == s.phase.Keys && GrowPublish(s, s', k)
    ensures Separate(s') && OnlyKey(s, s', k)
  {
    hide Pow2, BlkSz, Separate, KeyOk;
    GrowPublishKey(s, s', k);
    SeparateSame(s, s');
  }

  lemma GrowPublishBlocks(s: State, s': State, k: Key, lease: nat)
    requires Inv(s, lease) && GrowPublish(s, s', k) && At(s', k)
    ensures forall c :: c in s'.live && s'.live[c].key == k ==> BlockOk(s', c)
  {
    hide Pow2, BlkSz, Separate, ItemOk, PendingOk, KeyOk;
    assert KeyOk(s, k);
    GrowPublishKey(s, s', k);
    forall c | c in s'.live && s'.live[c].key == k
      ensures BlockOk(s', c)
    {
      assert BlockOk(s, c);
    }
  }

  lemma GrowPublishInv(s: State, s': State, k: Key, lease: nat)
    requires Inv(s, lease) && GrowPublish(s, s', k)
    ensures Inv(s', lease)
  {
    hide Pow2, BlkSz, Separate, KeyOk, BlockOk, ItemOk, PendingOk, OnlyKey;
    GrowPublishKey(s, s', k);
    GrowPublishOnly(s, s', k);
    GrowPublishBlocks(s, s', k, lease);
    PublishedItems(s, s', k, lease);
    OnlyKeyInv(s, s', k, lease);
  }

  /** Publishing a longer list keeps old pointers and the queue in order: a block that was
      current is still the current one, or is retired. */
  lemma PublishedItems(s: State, s': State, k: Key, lease: nat)
    requires Inv(s, lease) && At(s, k) && At(s', k)
    requires s' == s.(verts := s'.verts, list := s'.list, phase := s'.phase, live := s'.live)
    requires s'.verts == s.verts[k := s'.verts[k]] && s'.phase == s.phase[k := s'.phase[k]]
    requires s'.live.Keys == s.live.Keys
    requires forall b :: b in s.live && s.live[b].status != Fresh ==>
      s'.live[b] == s.live[b] || (s.live[b].key == k && s'.live[b] == s.live[b].(status := Retired))
    requires s.verts[k].size <= s'.verts[k].size
    requires s'.phase[k].Left? ==> s'.phase[k].was in s.live && s.live[s'.phase[k].was].status == Current
    ensures forall i :: i in s.held && i.key == k ==> ItemOk(s', i)
    ensures forall j :: 0 <= j < |s.pending| ==> PendingOk(s', s.pending[j])
  {
    hide Pow2, BlkSz, KeyOk, Separate, BlockOk;
    forall i | i in s.held && i.key == k
      ensures ItemOk(s', i)
    {
      assert ItemOk(s, i);
    }
    forall j | 0 <= j < |s.pending|
      ensures PendingOk(s', s.pending[j])
    {
      assert PendingOk(s, s.pending[j]);
    }
  }

  lemma MovePublishOnly(s: State, s': State, k: Key)
    requires Separate(s) && At(s, k) && KeyOk(s, k) && s.verts.Keys == s.list.Keys == s.phase.Keys && MovePublish(s, s', k)
    ensures Separate(s') && OnlyKey(s, s', k)
  {
    hide Pow2, BlkSz, Separate, KeyOk;
    MovePublishKey(s, s', k);
    SeparateSame(s, s');
  }

  lemma MovePublishBlocks(s: State, s': State, k: Key, lease: nat)
    requires Inv(s, lease) && MovePublish(s, s', k) && At(s', k)
    ensures forall c :: c in s'.live && s'.live[c].key == k ==> BlockOk(s', c)
  {
    hide Pow2, BlkSz, Separate, ItemOk, PendingOk, KeyOk;
    assert KeyOk(s, k);
    MovePublishKey(s, s', k);
    forall c | c in s'.live && s'.live[c].key == k
      ensures BlockOk(s', c)
    {
      assert BlockOk(s, c);
    }
  }

  lemma MovePublishInv(s: State, s': State, k: Key, lease: nat)
    requires Inv(s, lease) && MovePublish(s, s', k)
    ensures Inv(s', lease)
  {
    hide Pow2, BlkSz, Separate, KeyOk, BlockOk, ItemOk, PendingOk, OnlyKey;
    MovePublishKey(s, s', k);
    MovePublishOnly(s, s', k);
    MovePublishBlocks(s, s', k, lease);
    PublishedItems(s, s', k, lease);
    OnlyKeyInv(s, s', k, lease);
  }

  // ---- the other steps ----

  /** The key's own facts do not depend on clock, queue or pointers. */
  lemma KeysKept(s: State, s': State)
    requires s' == s.(now := s'.now, held := s'.held, pending := s'.pending)
    ensures forall k :: At(s, k) && KeyOk(s, k) ==> KeyOk(s', k)
    ensures forall b :: b in s.live && BlockOk(s, b) ==> BlockOk(s', b)
    ensures Separate(s) ==> Separate(s')
  {
    hide Pow2, BlkSz;
    if Separate(s) { SeparateSame(s, s'); }
  }

  lemma MovePendInv(s: State, s': State, k: Key, lease: nat)
    requires Inv(s, lease) && MovePend(s, s', k, lease)
    ensures Inv(s', lease)
  {
    hide Pow2, BlkSz, Separate, KeyOk, BlockOk, ItemOk, PendingOk;
    assert KeyOk(s, k);
    var was := s.phase[k].was;
    var t := s.(phase := s'.phase);
    LeftKey(s, t, k, lease);
    QuietItems(s, t, k, lease);
    OnlyKeyInv(s, t, k, lease);
    PendInv(t, s', was, lease, s, k);
  }

  lemma LeftKey(s: State, t: State, k: Key, lease: nat)
    requires Inv(s, lease) && At(s, k) && s.phase[k].Left? && t == s.(phase := s.phase[k := Idle])
    ensures At(t, k) && KeyOk(t, k) && Separate(t) && OnlyKey(s, t, k)
    ensures s.phase[k].was in s.live && s.live[s.phase[k].was].status == Retired
    ensures forall c :: c in t.live && t.live[c].key == k ==> BlockOk(t, c)
  {
    hide Pow2, BlkSz, Separate, ItemOk, PendingOk;
    assert KeyOk(s, k);
    SeparateSame(s, t);
    forall c | c in t.live && t.live[c].key == k
      ensures BlockOk(t, c)
    {
      assert BlockOk(s, c);
    }
  }

  lemma PendInv(s: State, s': State, was: nat, lease: nat, before: State, k: Key)
    requires Inv(s, lease) && was in s.live && s.live[was].status == Retired
    requires s' == s.(pending := s.pending + [Pending(was, s.now + lease)])
    requires Inv(before, lease) && k in before.phase && before.phase[k] == Left(was) && before.pending == s.pending
    requires s.phase == before.phase[k := Idle] && s.verts == before.verts
    ensures Inv(s', lease)
  {
    hide Pow2, BlkSz, KeyOk, Separate, BlockOk;
    KeysKept(s, s');
    forall i | i in s'.held
      ensures ItemOk(s', i)
    {
      assert ItemOk(s, i);
    }
    LeftIsUnique(before, k, was, lease);
    forall j | 0 <= j < |s'.pending|
      ensures PendingOk(s', s'.pending[j])
    {
      if j < |s.pending| { assert PendingOk(s, s.pending[j]); }
    }
    forall i, j | 0 <= i < j < |s'.pending|
      ensures s'.pending[i].off != s'.pending[j].off
    {
      assert PendingOk(before, s.pending[i]);
    }
  }

  lemma LeftIsUnique(s: State, k: Key, was: nat, lease: nat)
    requires Inv(s, lease) && k in s.phase && s.phase[k] == Left(was)
    ensures forall j :: j in s.phase && j != k && s.phase[j].Left? ==> s.phase[j].was != was
  {
    hide Pow2, BlkSz, Separate, BlockOk;
    assert KeyOk(s, k);
    forall j | j in s.phase && j != k && s.phase[j].Left?
      ensures s.phase[j].was != was
    {
      assert KeyOk(s, j);
    }
  }

  lemma TickInv(s: State, s': State, lease: nat)
    requires Inv(s, lease) && Tick(s, s')
    ensures Inv(s', lease)
  {
    hide Pow2, BlkSz, KeyOk, Separate, BlockOk;
    KeysKept(s, s');
    forall i | i in s'.held
      ensures ItemOk(s', i)
    {
      assert ItemOk(s, i);
    }
    forall j | 0 <= j < |s'.pending|
      ensures PendingOk(s', s'.pending[j])
    {
      assert PendingOk(s, s.pending[j]);
    }
  }

  /** The table never points to a retired block. */
  lemma TablePointer(s: State, k: Key, lease: nat)
    requires Inv(s, lease) && k in s.verts
    ensures s.verts[k].size == 0 ==> s.verts[k].off == 0
    ensures s.verts[k].size > 0 ==> s.verts[k].size < INVALID && s.verts[k].off in s.live
    ensures s.verts[k].size > 0 ==> s.live[s.verts[k].off] == Blk(BlkSz(s.verts[k].size + 1), k, Current)
  {
    hide Pow2, BlkSz, Separate, BlockOk;
    assert KeyOk(s, k);
  }

  lemma ReadPointerInv(s: State, s': State, k: Key, lease: nat)
    requires Inv(s, lease) && ReadPointer(s, s', k, lease)
    ensures Inv(s', lease)
  {
    hide Pow2, BlkSz, Separate, KeyOk, BlockOk;
    KeysKept(s, s');
    TablePointer(s, k, lease);
    forall i | i in s'.held
      ensures ItemOk(s', i)
    {
      if i in s.held { assert ItemOk(s, i); }
    }
    forall j | 0 <= j < |s'.pending|
      ensures PendingOk(s', s'.pending[j])
    {
      assert PendingOk(s, s.pending[j]);
    }
  }

  /** The lease at work: when a block's time is over no usable pointer leads to it. */
  lemma SweepFreeInv(s: State, s': State, lease: nat)
    requires Inv(s, lease) && SweepFree(s, s')
    ensures Inv(s', lease)
  {
    hide Pow2, BlkSz, Separate, KeyOk;
    var q := s.pending[0];
    assert PendingOk(s, q);
    SeparateSame(s, s');
    forall k | k in s'.verts
      ensures KeyOk(s', k)
    {
      assert KeyOk(s, k);
      KeyCarries(s, s', k);
    }
    forall b | b in s'.live
      ensures BlockOk(s', b)
    {
      assert BlockOk(s, b);
    }
    forall i | i in s'.held
      ensures ItemOk(s', i)
    {
      assert ItemOk(s, i);
    }
    forall j | 0 <= j < |s'.pending|
      ensures PendingOk(s', s'.pending[j])
    {
      assert PendingOk(s, s.pending[j + 1]);
    }
  }

  lemma ScribbleInv(s: State, s': State, a: nat, x: nat, lease: nat)
    requires Inv(s, lease) && Scribble(s, s', a, x)
    ensures Inv(s', lease)
  {
    hide Pow2, BlkSz, Separate, KeyOk;
    SeparateSame(s, s');
    forall k | k in s'.verts
      ensures KeyOk(s', k)
    {
      assert KeyOk(s, k);
      KeyCarries(s, s', k);
    }
    forall b | b in s'.live
      ensures BlockOk(s', b)
    {
      assert BlockOk(s, b);
    }
    forall i | i in s'.held
      ensures ItemOk(s', i)
    {
      assert ItemOk(s, i);
    }
    forall j | 0 <= j < |s'.pending|
      ensures PendingOk(s', s'.pending[j])
    {
      assert PendingOk(s, s.pending[j]);
    }
  }

  lemma NewKeyOk(s: State, k: Key)
    requires At(s, k) && s.verts[k] == Ptr(0, 0) && s.list[k] == [] && s.phase[k] == Idle
    ensures KeyOk(s, k)
  {
  }

  lemma PublishKeyInv(s: State, s': State, k: Key, lease: nat)
    requires Inv(s, lease) && PublishKey(s, s', k)
    ensures Inv(s', lease)
  {
    hide Pow2, BlkSz, Separate, KeyOk;
    SeparateSame(s, s');
    forall j | j in s'.verts
      ensures KeyOk(s', j)
    {
      if j != k { assert KeyOk(s, j); KeyCarries(s, s', j); } else { NewKeyOk(s', k); }
    }
    forall b | b in s'.live
      ensures BlockOk(s', b)
    {
      assert BlockOk(s, b);
    }
    forall i | i in s'.held
      ensures ItemOk(s', i)
    {
      assert ItemOk(s, i);
    }
    forall j | 0 <= j < |s'.pending|
      ensures PendingOk(s', s'.pending[j])
    {
      assert PendingOk(s, s.pending[j]);
    }
  }

  lemma InsertStepInv(s: State, s': State, k: Key, lease: nat)
    requires Inv(s, lease) && InsertStep(s, s', k, lease)
    ensures Inv(s', lease)
  {
    hide Inv, KeyOk, BlkSz, Pow2;
    if PublishKey(s, s', k) { PublishKeyInv(s, s', k, lease); }
    else if v, off :| FirstAlloc(s, s', k, v, off) { FirstAllocInv(s, s', k, v, off, lease); }
    else if FirstStore(s, s', k) { FirstStoreInv(s, s', k, lease); }
    else if FirstPublish(s, s', k) { FirstPublishInv(s, s', k, lease); }
    else if v :| GrowFlag(s, s', k, v) { GrowFlagInv(s, s', k, v, lease); }
    else if GrowStore(s, s', k) { GrowStoreInv(s, s', k, lease); }
    else if GrowPublish(s, s', k) { GrowPublishInv(s, s', k, lease); }
    else if v, off :| MoveAlloc(s, s', k, v, off) { MoveAllocInv(s, s', k, v, off, lease); }
    else if MoveCopy(s, s', k) { MoveCopyInv(s, s', k, lease); }
    else if MoveStore(s, s', k) { MoveStoreInv(s, s', k, lease); }
    else if MoveInvalidate(s, s', k) { MoveInvalidateInv(s, s', k, lease); }
    else if MovePublish(s, s', k) { MovePublishInv(s, s', k, lease); }
    else { MovePendInv(s, s', k, lease); }
  }

  lemma NextInv(s: State, s': State, lease: nat)
    requires Inv(s, lease) && Next(s, s', lease)
    ensures Inv(s', lease)
  {
    hide Inv, KeyOk, BlkSz, Pow2, InsertStep;
    if Tick(s, s') { TickInv(s, s', lease); }
    else if k :| InsertStep(s, s', k, lease) { InsertStepInv(s, s', k, lease); }
    else if SweepFree(s, s') { SweepFreeInv(s, s', lease); }
    else if a, x :| Scribble(s, s', a, x) { ScribbleInv(s, s', a, x, lease); }
    else {
      var k :| ReadPointer(s, s', k, lease);
      ReadPointerInv(s, s', k, lease);
    }
  }

  // ---- whole runs ----

  ghost predicate StepAt(run: seq<State>, i: nat, lease: nat)
    requires i + 1 < |run|
  {
    Next(run[i], run[i + 1], lease)
  }

  ghost predicate IsRun(run: seq<State>, lease: nat) {
    |run| > 0 && Init(run[0]) && forall i :: 0 <= i < |run| - 1 ==> StepAt(run, i, lease)
  }

  lemma {:induction false} RunInv(run: seq<State>, lease: nat, n: nat)
    requires IsRun(run, lease) && n < |run|
    ensures Inv(run[n], lease)
  {
    hide Init, Inv, StepAt;
    if n == 0 {
      InitInv(run[0], lease);
    } else {
      RunInv(run, lease, n - 1);
      RunStep(run, lease, n - 1);
      NextInv(run[n - 1], run[n], lease);
    }
  }

  lemma RunStep(run: seq<State>, lease: nat, i: nat)
    requires IsRun(run, lease) && i + 1 < |run|
    ensures Next(run[i], run[i + 1], lease)
  {
    assert StepAt(run, i, lease);
  }

  /** A list only ever changes by the element that an insert of its key is about to publish. */
  lemma ListsAppend(s: State, s': State, k: Key, lease: nat)
    requires Inv(s, lease) && Next(s, s', lease) && At(s, k)
    ensures At(s', k) && Appended(s, s', k)
  {
    hide Pow2, BlkSz, InsertStep;
    if j :| InsertStep(s, s', j, lease) {
      if j == k {
        FirstIsEmpty(s, k, lease);
        OwnAppend(s, s', k, lease);
      } else {
        OthersList(s, s', j, k, lease);
      }
    }
  }

  ghost predicate Appended(s: State, s': State, k: Key)
    requires At(s, k) && At(s', k)
  {
    || s'.list[k] == s.list[k]
    || ((s.phase[k].First? || s.phase[k].Grow? || s.phase[k].Move?) && s'.list[k] == s.list[k] + [s.phase[k].v])
  }

  lemma FirstIsEmpty(s: State, k: Key, lease: nat)
    requires Inv(s, lease) && At(s, k)
    ensures s.phase[k].First? ==> s.list[k] == []
  {
    hide Pow2, BlkSz;
    assert KeyOk(s, k);
  }

  lemma OwnAppend(s: State, s': State, k: Key, lease: nat)
    requires InsertStep(s, s', k, lease) && At(s, k) && (s.phase[k].First? ==> s.list[k] == [])
    ensures At(s', k) && Appended(s, s', k)
  {
    hide Pow2, BlkSz, FitsInPlace, FlagCell, CanAlloc;
  }

  lemma OthersList(s: State, s': State, j: Key, k: Key, lease: nat)
    requires InsertStep(s, s', j, lease) && j != k
    ensures At(s', k) <==> At(s, k)
    ensures At(s, k) ==> s'.list[k] == s.list[k] && s'.phase[k] == s.phase[k]
  {
    hide Pow2, BlkSz, FitsInPlace, FlagCell, CanAlloc;
  }

  // ---- what an insert has done when it has ended ----

  /** The element of the insert under way for a key. */
  ghost function InHand(ph: Phase): seq<nat> { if ph.First? || ph.Grow? || ph.Move? then [ph.v] else [] }

  /** The key's list with that element. */
  ghost function Promised(s: State, k: Key): seq<nat> { if At(s, k) then s.list[k] + InHand(s.phase[k]) else [] }

  /** The element of an insert that the step begins. */
  ghost function Begun(s: State, s': State, k: Key): seq<nat> {
    if At(s, k) && At(s', k) && s.phase[k] == Idle then InHand(s'.phase[k]) else []
  }

  /** No step loses or changes an element: what a key is to hold grows by the inserts begun. */
  lemma PromiseKept(s: State, s': State, k: Key, lease: nat)
    requires Inv(s, lease) && Next(s, s', lease)
    ensures Promised(s', k) == Promised(s, k) + Begun(s, s', k)
  {
    hide Pow2, BlkSz, InsertStep, KeyOk, BlockOk, Separate;
    if j :| InsertStep(s, s', j, lease) {
      if j == k {
        if At(s, k) { FirstIsEmpty(s, k, lease); }
        OwnPromise(s, s', k, lease);
      } else {
        OtherPromise(s, s', j, k, lease);
      }
    }
  }

  lemma OwnPromise(s: State, s': State, k: Key, lease: nat)
    requires InsertStep(s, s', k, lease) && s.verts.Keys == s.list.Keys == s.phase.Keys
    requires At(s, k) && s.phase[k].First? ==> s.list[k] == []
    ensures Promised(s', k) == Promised(s, k) + Begun(s, s', k)
  {
    hide Pow2, BlkSz, FitsInPlace, FlagCell, CanAlloc;
  }

  lemma OtherPromise(s: State, s': State, j: Key, k: Key, lease: nat)
    requires InsertStep(s, s', j, lease) && j != k
    ensures Promised(s', k) == Promised(s, k) && Begun(s, s', k) == []
  {
    hide InsertStep;
    OthersList(s, s', j, k, lease);
  }

  /** An insert that ends has appended its element. */
  lemma EndedInsert(s: State, s': State, k: Key, lease: nat)
    requires Inv(s, lease) && Next(s, s', lease) && At(s, k) && At(s', k)
    requires (s.phase[k].First? || s.phase[k].Grow? || s.phase[k].Move?) && (s'.phase[k].Idle? || s'.phase[k].Left?)
    ensures s'.list[k] == s.list[k] + [s.phase[k].v]
  {
    hide Inv, Next;
    PromiseKept(s, s', k, lease);
    assert Promised(s', k) == s'.list[k] && Promised(s, k) == s.list[k] + [s.phase[k].v] && Begun(s, s', k) == [];
  }

  /** The elements of all inserts begun for a key in the first n steps, in order. */
  ghost function Inserted(run: seq<State>, k: Key, n: nat): seq<nat>
    requires n < |run|
  {
    if n == 0 then [] else Inserted(run, k, n - 1) + Begun(run[n - 1], run[n], k)
  }

  /** Over a run: whenever no insert is under way for a key, its list is the one it started with
      followed by the elements of all inserts begun for it, in order. */
  lemma {:induction false} ListIsAllInserted(run: seq<State>, lease: nat, k: Key, n: nat)
    requires IsRun(run, lease) && n < |run|
    ensures Promised(run[n], k) == Promised(run[0], k) + Inserted(run, k, n)
    ensures At(run[n], k) && (run[n].phase[k].Idle? || run[n].phase[k].Left?) ==>
      run[n].list[k] == Promised(run[0], k) + Inserted(run, k, n)
  {
    hide Init, Inv, StepAt, Promised, Begun;
    if n > 0 {
      ListIsAllInserted(run, lease, k, n - 1);
      RunInv(run, lease, n - 1);
      RunStep(run, lease, n - 1);
      PromiseKept(run[n - 1], run[n], k, lease);
    }
    NothingInHand(run[n], k);
  }

  lemma NothingInHand(s: State, k: Key)
    ensures At(s, k) && (s.phase[k].Idle? || s.phase[k].Left?) ==> Promised(s, k) == s.list[k]
  {
  }

  /** An insert can begin whenever none is under way for its key and, unless the element fits in
      place, the allocator has a block for the longer list. */
  lemma InsertBegins(s: State, k: Key, v: nat, off: nat, lease: nat) returns (s': State)
    requires Inv(s, lease) && At(s, k) && s.phase[k] == Idle && s.verts[k].size + 1 < INVALID
    requires (s.verts[k].size > 0 && FitsInPlace(s.verts[k].size)) || CanAlloc(s, off, s.verts[k].size + 1)
    ensures InsertStep(s, s', k, lease) && Begun(s, s', k) == [v]
  {
    hide Pow2, BlkSz, Separate, BlockOk, ItemOk, PendingOk;
    assert KeyOk(s, k);
    var p := s.verts[k];
    BlkSzHolds(p.size + 1);
    BlkSzHolds(p.size + 2);
    if p.size == 0 {
      s' := s.(mem := s.mem[FlagCell(1, off) := 1], phase := s.phase[k := First(v, off, false)],
               live := s.live[off := Blk(BlkSz(2), k, Fresh)]);
      assert FirstAlloc(s, s', k, v, off);
    } else if FitsInPlace(p.size) {
      FlagStays(p.size);
      s' := s.(mem := s.mem[FlagCell(p.size + 1, p.off) := p.size + 1], phase := s.phase[k := Grow(v, false)]);
      assert GrowFlag(s, s', k, v);
    } else {
      s' := s.(mem := s.mem[FlagCell(p.size + 1, off) := p.size + 1], phase := s.phase[k := Move(v, off, 1)],
               live := s.live[off := Blk(BlkSz(p.size + 2), k, Fresh)]);
      assert MoveAlloc(s, s', k, v, off);
    }
  }

  lemma FlagStays(size: nat)
    requires FitsInPlace(size)
    ensures BlkSz(size + 2) == BlkSz(size + 1)
  {
    BlkSzStable(size + 1, size + 2);
  }

  /** How many steps an insert still takes. */
  ghost function StepsLeft(ph: Phase): nat {
    match ph
    case Idle => 0
    case First(_, _, stored) => if stored then 1 else 2
    case Grow(_, stored) => if stored then 1 else 2
    case Move(_, _, stage) => if stage < 5 then 6 - stage else 1
    case Left(_) => 1
  }

  /** An insert under way can always go on, and comes to its end. */
  lemma InsertGoesOn(s: State, k: Key, lease: nat) returns (s': State)
    requires Inv(s, lease) && At(s, k) && s.phase[k] != Idle
    ensures InsertStep(s, s', k, lease) && At(s', k) && StepsLeft(s'.phase[k]) < StepsLeft(s.phase[k])
  {
    hide Pow2, BlkSz, Separate, BlockOk, ItemOk, PendingOk;
    assert KeyOk(s, k);
    var p, ph := s.verts[k], s.phase[k];
    BlkSzHolds(2);
    BlkSzHolds(p.size + 1);
    BlkSzHolds(p.size + 2);
    match ph
    case First(v, off, stored) =>
      if !stored {
        s' := s.(mem := s.mem[off := v], phase := s.phase[k := First(v, off, true)]);
        assert FirstStore(s, s', k);
      } else {
        s' := s.(verts := s.verts[k := Ptr(1, off)], list := s.list[k := [v]], phase := s.phase[k := Idle],
                 live := s.live[off := Blk(BlkSz(2), k, Current)]);
        assert FirstPublish(s, s', k);
      }
    case Grow(v, stored) =>
      if !stored {
        s' := s.(mem := s.mem[p.off + p.size := v], phase := s.phase[k := Grow(v, true)]);
        assert GrowStore(s, s', k);
      } else {
        s' := s.(verts := s.verts[k := Ptr(p.size + 1, p.off)], list := s.list[k := s.list[k] + [v]], phase := s.phase[k := Idle]);
        assert GrowPublish(s, s', k);
      }
    case Move(v, off, stage) =>
      s' := MoveGoesOn(s, k, lease);
    case Left(was) =>
      s' := s.(pending := s.pending + [Pending(was, s.now + lease)], phase := s.phase[k := Idle]);
      assert MovePend(s, s', k, lease);
  }

  lemma MoveGoesOn(s: State, k: Key, lease: nat) returns (s': State)
    requires At(s, k) && KeyOk(s, k) && s.phase[k].Move?
    ensures InsertStep(s, s', k, lease) && At(s', k) && StepsLeft(s'.phase[k]) < StepsLeft(s.phase[k])
  {
    hide Pow2, BlkSz;
    var p, ph := s.verts[k], s.phase[k];
    BlkSzHolds(p.size + 1);
    BlkSzHolds(p.size + 2);
    if ph.stage == 1 {
      s' := s.(mem := Copied(s.mem, ph.off, p.off, p.size), phase := s.phase[k := Move(ph.v, ph.off, 2)]);
      assert MoveCopy(s, s', k);
    } else if ph.stage == 2 {
      s' := s.(mem := s.mem[ph.off + p.size := ph.v], phase := s.phase[k := Move(ph.v, ph.off, 3)]);
      assert MoveStore(s, s', k);
    } else if ph.stage == 3 {
      s' := s.(mem := s.mem[FlagCell(p.size, p.off) := INVALID], phase := s.phase[k := Move(ph.v, ph.off, 4)]);
      assert MoveInvalidate(s, s', k);
    } else {
      s' := s.(verts := s.verts[k := Ptr(p.size + 1, ph.off)], list := s.list[k := s.list[k] + [ph.v]],
               phase := s.phase[k := Left(p.off)],
               live := s.live[p.off := Blk(s.live[p.off].cap, k, Retired)][ph.off := Blk(BlkSz(p.size + 2), k, Current)]);
      assert MovePublish(s, s', k);
    }
  }

  /** Whatever step of the insert is taken, there are fewer left. */
  lemma InsertComesToEnd(s: State, s': State, k: Key, lease: nat)
    requires Inv(s, lease) && InsertStep(s, s', k, lease) && At(s, k) && s.phase[k] != Idle
    ensures At(s', k) && StepsLeft(s'.phase[k]) < StepsLeft(s.phase[k])
  {
    hide Pow2, BlkSz, FitsInPlace, FlagCell, CanAlloc, Inv;
  }

  // ---- no block is lost ----

  /** A block that was given up waits to be freed. */
  ghost predicate Waits(s: State, b: nat)
    requires b in s.live
  {
    (exists j :: 0 <= j < |s.pending| && s.pending[j].off == b)
    || (s.live[b].key in s.phase && s.phase[s.live[b].key] == Left(b))
  }

  ghost predicate NothingLost(s: State) {
    forall b :: b in s.live && s.live[b].status == Retired ==> Waits(s, b)
  }

  lemma StillNothingLost(s: State, s': State, lease: nat)
    requires Inv(s, lease) && Next(s, s', lease) && NothingLost(s)
    ensures NothingLost(s')
  {
    hide Pow2, BlkSz, InsertStep, KeyOk, BlockOk, Separate, ItemOk;
    if k :| InsertStep(s, s', k, lease) {
      if MovePublish(s, s', k) { SwitchLosesNothing(s, s', k); }
      else if MovePend(s, s', k, lease) { PendLosesNothing(s, s', k, lease); }
      else { InsertLosesNothing(s, s', k, lease); }
    } else if SweepFree(s, s') {
      SweepLosesNothing(s, s', lease);
    }
  }

  lemma SwitchLosesNothing(s: State, s': State, k: Key)
    requires MovePublish(s, s', k) && NothingLost(s)
    ensures NothingLost(s')
  {
    hide Pow2, BlkSz;
    forall b | b in s'.live && s'.live[b].status == Retired
      ensures Waits(s', b)
    {
      if b != s.verts[k].off { assert b in s.live && Waits(s, b); }
    }
  }

  lemma PendLosesNothing(s: State, s': State, k: Key, lease: nat)
    requires MovePend(s, s', k, lease) && NothingLost(s)
    ensures NothingLost(s')
  {
    forall b | b in s'.live && s'.live[b].status == Retired
      ensures Waits(s', b)
    {
      assert Waits(s, b);
      var n := |s.pending|;
      if j :| 0 <= j < n && s.pending[j].off == b {
        assert s'.pending[j].off == b;
      } else if s.live[b].key == k {
        assert s'.pending[n].off == b;
      }
    }
  }

  /** The other steps of an insert give up no block and leave alone those that wait. */
  lemma InsertLosesNothing(s: State, s': State, k: Key, lease: nat)
    requires InsertStep(s, s', k, lease) && !MovePublish(s, s', k) && !MovePend(s, s', k, lease) && NothingLost(s)
    requires s.verts.Keys == s.phase.Keys
    ensures NothingLost(s')
  {
    hide Pow2, BlkSz, FitsInPlace, FlagCell, CanAlloc, InsertStep;
    InsertKeepsRetired(s, s', k, lease);
    forall b | b in s'.live && s'.live[b].status == Retired
      ensures Waits(s', b)
    {
      assert Waits(s, b);
      var j := s.live[b].key;
      if j != k && j in s.phase { assert s'.phase[j] == s.phase[j]; }
    }
  }

  lemma InsertKeepsRetired(s: State, s': State, k: Key, lease: nat)
    requires InsertStep(s, s', k, lease) && !MovePublish(s, s', k) && !MovePend(s, s', k, lease) && s.verts.Keys == s.phase.Keys
    ensures s'.pending == s.pending && (k in s.phase ==> !s.phase[k].Left?)
    ensures forall b :: b in s'.live && s'.live[b].status == Retired ==> b in s.live && s.live[b] == s'.live[b]
    ensures forall j :: j in s.phase && j != k ==> j in s'.phase && s'.phase[j] == s.phase[j]
    ensures k in s.phase ==> k in s'.phase
  {
    hide Pow2, BlkSz, FitsInPlace, FlagCell, CanAlloc;
  }

  lemma SweepLosesNothing(s: State, s': State, lease: nat)
    requires Inv(s, lease) && SweepFree(s, s') && NothingLost(s)
    ensures NothingLost(s')
  {
    hide Pow2, BlkSz, KeyOk, BlockOk, Separate, ItemOk;
    forall b | b in s'.live && s'.live[b].status == Retired
      ensures Waits(s', b)
    {
      assert Waits(s, b);
      if j :| 0 <= j < |s.pending| && s.pending[j].off == b { assert s'.pending[j - 1].off == b; }
    }
  }

  lemma {:induction false} RunLosesNothing(run: seq<State>, lease: nat, n: nat)
    requires IsRun(run, lease) && n < |run|
    ensures NothingLost(run[n])
  {
    hide Inv, StepAt, NothingLost;
    if n == 0 {
      assert NothingLost(run[0]) by { NoneRetired(run[0]); }
    } else {
      RunLosesNothing(run, lease, n - 1);
      RunInv(run, lease, n - 1);
      RunStep(run, lease, n - 1);
      StillNothingLost(run[n - 1], run[n], lease);
    }
  }

  /** No block waits longer than a lease from now. */
  ghost predicate FreedSoon(s: State, lease: nat) {
    forall j :: 0 <= j < |s.pending| ==> s.pending[j].expire <= s.now + lease
  }

  /** In every run the oldest block that waits can be freed a lease later at most. */
  lemma {:induction false} RunFreesSoon(run: seq<State>, lease: nat, n: nat)
    requires IsRun(run, lease) && n < |run|
    ensures FreedSoon(run[n], lease)
    ensures run[n].pending != [] ==>
      var s := run[n].(now := run[n].now + lease); SweepFree(s, s.(live := s.live - {s.pending[0].off}, pending := s.pending[1..]))
  {
    hide Inv, StepAt, FreedSoon;
    if n == 0 {
      assert FreedSoon(run[0], lease) by { NonePending(run[0], lease); }
    } else {
      RunFreesSoon(run, lease, n - 1);
      RunInv(run, lease, n - 1);
      RunStep(run, lease, n - 1);
      StillFreedSoon(run[n - 1], run[n], lease);
    }
    FirstFreed(run[n], lease);
  }

  lemma NonePending(s: State, lease: nat)
    requires Init(s)
    ensures FreedSoon(s, lease)
  {
  }

  lemma FirstFreed(s: State, lease: nat)
    requires FreedSoon(s, lease)
    ensures s.pending != [] ==> s.pending[0].expire <= s.now + lease
  {
  }

  lemma StillFreedSoon(s: State, s': State, lease: nat)
    requires Inv(s, lease) && Next(s, s', lease) && FreedSoon(s, lease)
    ensures FreedSoon(s', lease)
  {
    hide Pow2, BlkSz, InsertStep, KeyOk, BlockOk, Separate, ItemOk;
    if k :| InsertStep(s, s', k, lease) {
      if !MovePublish(s, s', k) && !MovePend(s, s', k, lease) {
        InsertKeepsRetired(s, s', k, lease);
        InsertKeepsTime(s, s', k, lease);
      }
    }
  }

  lemma InsertKeepsTime(s: State, s': State, k: Key, lease: nat)
    requires InsertStep(s, s', k, lease)
    ensures s'.now == s.now
  {
    hide Pow2, BlkSz, FitsInPlace, FlagCell, CanAlloc;
  }

  lemma NoneRetired(s: State)
    requires Init(s)
    ensures NothingLost(s)
  {
    hide Pow2, BlkSz, Separate;
    assert forall b :: b in s.live ==> LoadedKey(s, s.live[b].key);
  }

  /** So in every run, when no insert is under way and the queue has been swept, the blocks handed
      out are exactly those of the non-empty lists, one each. */
  lemma OnlyListsLeft(run: seq<State>, lease: nat, n: nat, b: nat)
    requires IsRun(run, lease) && n < |run| && run[n].pending == []
    requires forall k :: k in run[n].phase ==> run[n].phase[k] == Idle
    ensures b in run[n].live <==> exists k :: k in run[n].verts && run[n].verts[k].size > 0 && run[n].verts[k].off == b
  {
    hide Pow2, BlkSz, Init, Separate, ItemOk, StepAt;
    var s := run[n];
    RunInv(run, lease, n);
    RunLosesNothing(run, lease, n);
    if b in s.live {
      assert BlockOk(s, b);
      assert s.live[b].status == Retired ==> Waits(s, b);
      var k := s.live[b].key;
      assert k in s.verts && s.verts[k].size > 0 && s.verts[k].off == b;
    }
    if k :| k in s.verts && s.verts[k].size > 0 && s.verts[k].off == b { assert KeyOk(s, k); }
  }

  /** In every run, a read that passes the size check returns the key's list of that moment
      if and only if its pointer is not empty or the list is.  The pointer can be empty and
      the list not: the table shows a key before its first edge. */
  lemma ReadExactIff(run: seq<State>, lease: nat, n: nat, i: Item)
    requires IsRun(run, lease) && n < |run| && Passes(run[n], i)
    ensures i.key in run[n].list
    ensures i.key in run[n].verts
    ensures ReadList(run[n], i) == run[n].list[i.key] <==> i.ptr.size > 0 || run[n].verts[i.key].size == 0
  {
    hide Pow2, BlkSz;
    RunInv(run, lease, n);
    assert ItemOk(run[n], i);
    assert KeyOk(run[n], i.key);
    if i.ptr.size > 0 { ValidatedReadIsExact(run[n], i, lease); }
  }

  /** When a server has finished with a key and a client reads the pointer afresh, the read
      passes: retrying after a failed check ends. */
  lemma FreshPointerPasses(s: State, s': State, k: Key, lease: nat)
    requires Inv(s, lease) && ReadPointer(s, s', k, lease) && lease > 0
    requires s.verts[k].size > 0 && (s.phase[k].Idle? || s.phase[k].Left?)
    ensures Passes(s', Item(k, s.verts[k], s.now + lease))
  {
    hide Pow2, BlkSz;
    assert KeyOk(s, k);
    BlkSzHolds(s.verts[k].size + 1);
  }

  /** The stale case is real: a client that reads the pointer between the insertion of the
      key and its first edge gets the empty list, with the check passing, after the edge. */
  lemma StaleEmptyRead(mem: seq<nat>, v: nat, lease: nat) returns (run: seq<State>, i: Item)
    requires |mem| == 2 * RESERVED && FlagCell(0, 0) < |mem| && mem[FlagCell(0, 0)] == 0 && lease > 0
    ensures IsRun(run, lease) && |run| > 0
    ensures var s := run[|run| - 1];
      Passes(s, i) && i.key in s.list && s.list[i.key] == [v] && i.ptr.size == 0 && ReadList(s, i) == []
  {
    SmallBlocks();
    hide Pow2, BlkSz;
    var s0 := State(mem, 0, map[], map[], map[], map[], [], {});
    var s1 := s0.(verts := map[7 := Ptr(0, 0)], list := map[7 := []], phase := map[7 := Idle]);
    i := Item(7, Ptr(0, 0), 0 + lease);
    var s2 := s1.(held := {i});
    var off := RESERVED;
    var s3 := s2.(mem := mem[FlagCell(1, off) := 1], phase := map[7 := First(v, off, false)],
                  live := map[off := Blk(BlkSz(2), 7, Fresh)]);
    var s4 := s3.(mem := s3.mem[off := v], phase := map[7 := First(v, off, true)]);
    var s5 := s4.(verts := map[7 := Ptr(1, off)], list := map[7 := [v]], phase := map[7 := Idle],
                  live := map[off := Blk(BlkSz(2), 7, Current)]);
    assert PublishKey(s0, s1, 7) && InsertStep(s0, s1, 7, lease);
    assert ReadPointer(s1, s2, 7, lease);
    assert CanAlloc(s2, off, 1);
    assert FirstAlloc(s2, s3, 7, v, off) && InsertStep(s2, s3, 7, lease);
    assert FirstStore(s3, s4, 7) && InsertStep(s3, s4, 7, lease);
    assert FirstPublish(s4, s5, 7) && InsertStep(s4, s5, 7, lease);
    run := [s0, s1, s2, s3, s4, s5];
    forall j | 0 <= j < |run| - 1
      ensures StepAt(run, j, lease)
    {
    }
  }

  lemma SmallBlocks()
    ensures BlkSz(1) == 4 && BlkSz(2) == 4
  {
    assert Pow2(4) == 16 && Pow2(5) == 32;
    assert LevelFrom(4, 4) == LevelFrom(4, 5) == 5;
    assert LevelFrom(8, 4) == LevelFrom(8, 5) == 5;
  }
}
