/**
 * The ring buffer as code: memory copies with wrap-around on a fixed byte array, the writer's
 * tail and the reader's head (core/rdma_adaptor.hpp).  Each method is one uninterrupted
 * action of one thread and is proved to be a step, or a row of steps, of RingSpec; so every
 * theorem about its runs holds of any interleaving of these methods.
 */
module RingBuffer {
  import opened Words
  import opened RingSpec

  // ---- flat memory against ring positions ----

  lemma CellCases(p: nat, r: nat)
    requires r > 0
    ensures p < r ==> Cell(p, r) == p
    ensures Cell(p + r, r) == Cell(p, r)
  {
    AddRingMod(p, r);
  }

  lemma {:induction false} NextCell(p: nat, r: nat)
    requires r > 0
    ensures Cell(p + 1, r) == if Cell(p, r) + 1 == r then 0 else Cell(p, r) + 1
  {
    hide Cell;
    if p < r {
      CellCases(p, r);
      CellCases(p + 1, r);
      CellCases(0, r);
    } else {
      CellCases(p - r, r);
      CellCases(p - r + 1, r);
      NextCell(p - r, r);
    }
  }

  /** A store that does not reach the end of the ring is one contiguous copy. */
  lemma {:induction false} PutFlat(buf: seq<byte>, p: nat, bs: seq<byte>)
    requires |buf| > 0 && Cell(p, |buf|) + |bs| <= |buf|
    ensures Put(buf, p, bs) == buf[..Cell(p, |buf|)] + bs + buf[Cell(p, |buf|) + |bs|..]
    decreases |bs|
  {
    hide Cell;
    if bs != [] {
      var c := Cell(p, |buf|);
      NextCell(p, |buf|);
      if c + 1 == |buf| {
        assert bs == [bs[0]];
      } else {
        PutFlat(buf[c := bs[0]], p + 1, bs[1..]);
      }
    }
  }

  lemma GetFlat(buf: seq<byte>, p: nat, n: nat)
    requires |buf| > 0 && Cell(p, |buf|) + n <= |buf|
    ensures Get(buf, p, n) == buf[Cell(p, |buf|)..Cell(p, |buf|) + n]
  {
    hide Cell;
    var c := Cell(p, |buf|);
    forall i | 0 <= i < n
      ensures Get(buf, p, n)[i] == buf[c..c + n][i]
    {
      CellPlus(p, i, |buf|);
    }
  }

  lemma {:induction false} CellPlus(p: nat, i: nat, r: nat)
    requires r > 0 && Cell(p, r) + i < r
    ensures Cell(p + i, r) == Cell(p, r) + i
  {
    hide Cell;
    if i > 0 {
      CellPlus(p, i - 1, r);
      NextCell(p + i - 1, r);
    }
  }

  /** The first position past the end of the ring is cell 0. */
  lemma WrapCell(p: nat, k: nat, r: nat)
    requires r > 0 && k == r - Cell(p, r)
    ensures Cell(p + k, r) == 0
  {
    hide Cell;
    CellPlus(p, k - 1, r);
    NextCell(p + k - 1, r);
  }

  /** The writer's wrap test: both ends on the same lap means the copy is contiguous. */
  lemma SameLap(p: nat, n: nat, r: nat)
    requires 0 < n <= r
    ensures p / r == (p + n - 1) / r <==> Cell(p, r) + n <= r
  {
    var q, q' := p / r, (p + n - 1) / r;
    MulDiff(q', q, r);
    MulBound(q' - q, r);
    MulBound(q - q', r);
  }

  lemma {:induction false} ScaleCell(a: nat, b: nat)
    requires b > 0
    ensures Cell(WORD * a, WORD * b) == WORD * Cell(a, b)
  {
    hide Cell;
    if a < b {
      CellCases(a, b);
      CellCases(WORD * a, WORD * b);
    } else {
      ScaleCell(a - b, b);
      CellCases(a - b, b);
      CellCases(WORD * (a - b), WORD * b);
      assert WORD * (a - b) + WORD * b == WORD * a;
    }
  }

  /** Aligned words never straddle the end of the ring. */
  lemma AlignedCell(p: nat, r: nat)
    requires p % WORD == 0 && r % WORD == 0 && r > 0
    ensures Cell(p, r) + WORD <= r && Cell(p, r) % WORD == 0
  {
    hide Cell;
    ScaleCell(p / WORD, r / WORD);
  }

  lemma {:induction false} OffsetAligned(msgs: seq<Msg>, r: nat, n: nat)
    requires Layout(msgs, r) && n <= |msgs|
    ensures StreamEnd(msgs, n) % WORD == 0
  {
    if n > 0 {
      OffsetAligned(msgs, r, n - 1);
      assert Adjacent(msgs, n - 1);
    }
  }

  lemma PutToEnd(buf: seq<byte>, p: nat, x: seq<byte>)
    requires |buf| > 0 && |x| == |buf| - Cell(p, |buf|)
    ensures Put(buf, p, x) == buf[..|buf| - |x|] + x
  {
    hide Cell, Put;
    PutFlat(buf, p, x);
    assert buf[|buf| - |x| + |x|..] == [];
  }

  lemma PutFromStart(buf: seq<byte>, p: nat, y: seq<byte>)
    requires |buf| > 0 && Cell(p, |buf|) == 0 && |y| <= |buf|
    ensures Put(buf, p, y) == y + buf[|y|..]
  {
    hide Cell, Put;
    PutFlat(buf, p, y);
    assert buf[..0] + y == y;
  }

  /** A store that wraps is one copy up to the end of the ring and one from its start. */
  lemma PutTwo(buf: seq<byte>, p: nat, x: seq<byte>, y: seq<byte>)
    requires |buf| > 0 && |x| == |buf| - Cell(p, |buf|) && |y| <= |buf| - |x|
    ensures Put(buf, p, x + y) == y + buf[|y|..|buf| - |x|] + x
  {
    hide Cell, Put;
    var b := buf[..|buf| - |x|] + x;
    assert Put(buf, p, x) == b by { PutToEnd(buf, p, x); }
    assert Put(b, p + |x|, y) == y + b[|y|..] by { PutSecond(buf, p, x, b, y); }
    assert y + b[|y|..] == y + buf[|y|..|buf| - |x|] + x by { Regroup(buf, |buf| - |x|, x, y); }
    PutConcat(buf, p, x, y);
  }

  lemma PutSecond(buf: seq<byte>, p: nat, x: seq<byte>, b: seq<byte>, y: seq<byte>)
    requires |b| == |buf| > 0 && |x| == |buf| - Cell(p, |buf|) && |y| <= |b|
    ensures Put(b, p + |x|, y) == y + b[|y|..]
  {
    hide Cell, Put;
    WrapCell(p, |x|, |b|);
    PutFromStart(b, p + |x|, y);
  }

  lemma Regroup(buf: seq<byte>, c: nat, x: seq<byte>, y: seq<byte>)
    requires |y| <= c <= |buf|
    ensures y + (buf[..c] + x)[|y|..] == y + buf[|y|..c] + x
  {
    assert (buf[..c] + x)[|y|..] == buf[|y|..c] + x;
  }

  lemma PutWrapped(buf: seq<byte>, p: nat, bs: seq<byte>, k: nat)
    requires |buf| > 0 && k == |buf| - Cell(p, |buf|) && k <= |bs| <= |buf|
    ensures Put(buf, p, bs) == bs[k..] + buf[|bs| - k..|buf| - k] + bs[..k]
  {
    hide Cell, Put;
    PutTwo(buf, p, bs[..k], bs[k..]);
    assert bs[..k] + bs[k..] == bs;
  }

  lemma GetConcat(buf: seq<byte>, p: nat, m: nat, n: nat)
    requires |buf| > 0
    ensures Get(buf, p, m) + Get(buf, p + m, n) == Get(buf, p, m + n)
  {
    var x, y := Get(buf, p, m) + Get(buf, p + m, n), Get(buf, p, m + n);
    forall i | 0 <= i < |x|
      ensures x[i] == y[i]
    {
      if i >= m { assert x[i] == At(buf, p + m + (i - m)); }
    }
  }

  /** Storing what is already there changes nothing. */
  lemma {:induction false} PutSame(buf: seq<byte>, p: nat, bs: seq<byte>)
    requires |buf| > 0
    requires bs == Get(buf, p, |bs|)
    ensures Put(buf, p, bs) == buf
    decreases |bs|
  {
    if bs != [] {
      assert bs[0] == At(buf, p + 0);
      assert buf[Cell(p, |buf|) := bs[0]] == buf;
      var rest := Get(buf, p + 1, |bs| - 1);
      forall i | 0 <= i < |rest|
        ensures bs[1..][i] == rest[i]
      {
        assert bs[i + 1] == At(buf, p + (i + 1));
      }
      PutSame(buf, p + 1, bs[1..]);
    }
  }

  // ---- memory primitives ----

  method Memcpy(a: array<byte>, at: nat, data: seq<byte>)
    requires at + |data| <= a.Length
    modifies a
    ensures a[..] == old(a[..at]) + data + old(a[at + |data|..])
  {
    for k := 0 to |data|
      invariant a[..] == old(a[..at]) + data[..k] + old(a[at + k..])
    {
      a[at + k] := data[k];
    }
  }

  method Memset(a: array<byte>, at: nat, n: nat)
    requires at + n <= a.Length
    modifies a
    ensures a[..] == old(a[..at]) + Zeros(n) + old(a[at + n..])
  {
    Memcpy(a, at, Zeros(n));
  }

  /** Copy data to the end of the array from cell c on, and the rest to its start. */
  method CopyInTwo(a: array<byte>, c: nat, data: seq<byte>)
    requires c < a.Length && a.Length - c <= |data| <= a.Length
    modifies a
    ensures a[..] == data[a.Length - c..] + old(a[|data| - (a.Length - c)..c]) + data[..a.Length - c]
  {
    var sz := a.Length - c;
    Memcpy(a, c, data[..sz]);
    assert a[..] == old(a[..c]) + data[..sz];
    Memcpy(a, 0, data[sz..]);
  }

  /** Store bytes at a stream position, in one or two pieces. */
  method CopyIn(a: array<byte>, off: nat, data: seq<byte>)
    requires 0 < |data| <= a.Length
    modifies a
    ensures a[..] == Put(old(a[..]), off, data)
  {
    hide Put, Cell;
    var r := a.Length;
    SameLap(off, |data|, r);
    if off / r == (off + |data| - 1) / r {
      PutFlat(a[..], off, data);
      Memcpy(a, Cell(off, r), data);
    } else {
      PutWrapped(a[..], off, data, r - Cell(off, r));
      CopyInTwo(a, Cell(off, r), data);
    }
  }

  /** Store one 64-bit word at an aligned stream position. */
  method StoreU64(a: array<byte>, off: nat, v: nat)
    requires a.Length > 0 && a.Length % WORD == 0 && off % WORD == 0
    modifies a
    ensures a[..] == Put(old(a[..]), off, Encode(v, WORD))
  {
    hide Put, Cell;
    AlignedCell(off, a.Length);
    PutFlat(a[..], off, Encode(v, WORD));
    Memcpy(a, Cell(off, a.Length), Encode(v, WORD));
  }

  method LoadU64(a: array<byte>, off: nat) returns (v: nat)
    requires a.Length > 0 && a.Length % WORD == 0 && off % WORD == 0
    ensures v == WordAt(a[..], off)
  {
    hide Cell;
    AlignedCell(off, a.Length);
    GetFlat(a[..], off, WORD);
    var c := Cell(off, a.Length);
    v := Decode(a[c..c + WORD]);
  }

  /** Zero n cells at the end of the array from cell c on, and m cells at its start. */
  method ClearTwo(a: array<byte>, c: nat, m: nat)
    requires m <= c < a.Length
    modifies a
    ensures a[..] == Zeros(m) + old(a[m..c]) + Zeros(a.Length - c)
  {
    Memset(a, c, a.Length - c);
    assert a[..] == old(a[..c]) + Zeros(a.Length - c);
    Memset(a, 0, m);
  }

  /** The reader's wrap test, and what it computes in each case. */
  lemma EndCell(off: nat, sz: nat, r: nat)
    requires r > 0 && 0 < sz < r
    ensures Cell(off, r) < Cell(off + sz, r) <==> Cell(off, r) + sz < r
    ensures Cell(off + sz, r) == if Cell(off, r) + sz < r then Cell(off, r) + sz else Cell(off, r) + sz - r
  {
    hide Cell;
    if Cell(off, r) + sz < r {
      CellPlus(off, sz, r);
    } else {
      WrapEnd(off, sz, r);
    }
  }

  lemma CeilSplit(k: nat, n: nat)
    requires k % WORD == 0
    ensures CeilWord(k + n) == k + CeilWord(n)
  {
  }

  /** A payload that wraps is read in two pieces ... */
  lemma GetWrapped(buf: seq<byte>, off: nat, k: nat, end: nat)
    requires |buf| > 0 && k == |buf| - Cell(off, |buf|) && end <= |buf|
    ensures Get(buf, off, k + end) == buf[|buf| - k..] + buf[..end]
  {
    hide Cell, At;
    WrapCell(off, k, |buf|);
    GetConcat(buf, off, k, end);
    GetFlat(buf, off, k);
    GetFlat(buf, off + k, end);
  }

  /** ... and zeroed in two pieces, padding included. */
  lemma ClearWrapped(buf: seq<byte>, off: nat, k: nat, m: nat)
    requires |buf| > 0 && k == |buf| - Cell(off, |buf|) && m <= |buf| - k
    ensures Put(buf, off, Zeros(k + m)) == Zeros(m) + buf[m..|buf| - k] + Zeros(k)
  {
    hide Cell, Put;
    var z := Zeros(k + m);
    PutWrapped(buf, off, z, k);
    assert z[k..] == Zeros(m) && z[..k] == Zeros(k);
  }

  /** Copy out and zero a payload of sz bytes at an aligned stream position, in one piece or
      two; the zeroed part includes the padding. */
  method CopyOutAndClear(a: array<byte>, off: nat, sz: nat) returns (data: seq<byte>)
    requires a.Length > 0 && a.Length % WORD == 0 && off % WORD == 0
    requires 0 < sz && CeilWord(sz) < a.Length
    modifies a
    ensures data == old(Get(a[..], off, sz))
    ensures a[..] == Put(old(a[..]), off, Zeros(CeilWord(sz)))
  {
    hide Put, At, Cell;
    var start := Cell(off, a.Length);
    var end := Cell(off + sz, a.Length);
    EndCell(off, sz, a.Length);
    AlignedCell(off, a.Length);
    if start < end {
      data := TakeFlat(a, off, sz);
    } else {
      data := TakeWrapped(a, off, sz, start, end);
    }
  }

  method TakeWrapped(a: array<byte>, off: nat, sz: nat, start: nat, end: nat) returns (data: seq<byte>)
    requires a.Length > 0 && a.Length % WORD == 0 && start % WORD == 0
    requires start == Cell(off, a.Length) && sz == a.Length - start + end && CeilWord(sz) < a.Length
    modifies a
    ensures data == old(Get(a[..], off, sz))
    ensures a[..] == Put(old(a[..]), off, Zeros(CeilWord(sz)))
  {
    hide Put, At, Cell, Get, CeilWord, Zeros;
    ghost var before := a[..];
    Wrapped(before, off, sz, start, end);
    data := a[start..start + (sz - end)] + a[..end];
    assert data == before[start..start + (sz - end)] + before[..end];
    ClearTwo(a, start, CeilWord(end));
    assert a[..] == Zeros(CeilWord(end)) + before[CeilWord(end)..start] + Zeros(a.Length - start);
  }

  /** What a reader gets from a payload that wraps, and what it leaves behind. */
  lemma Wrapped(buf: seq<byte>, off: nat, sz: nat, start: nat, end: nat)
    requires |buf| > 0 && |buf| % WORD == 0 && start % WORD == 0
    requires start == Cell(off, |buf|) && sz == |buf| - start + end && CeilWord(sz) < |buf|
    ensures end <= |buf| && start + (sz - end) == |buf| && CeilWord(end) <= start < |buf|
    ensures Get(buf, off, sz) == buf[start..start + (sz - end)] + buf[..end]
    ensures Put(buf, off, Zeros(CeilWord(sz))) == Zeros(CeilWord(end)) + buf[CeilWord(end)..start] + Zeros(|buf| - start)
  {
    hide Put, At, Cell, Get, Zeros, CeilWord;
    WordsLeft(|buf|, start, end, sz);
    WrappedGet(buf, off, sz, start, end);
    WrappedPut(buf, off, CeilWord(sz), start, CeilWord(end));
  }

  lemma WrappedGet(buf: seq<byte>, off: nat, sz: nat, start: nat, end: nat)
    requires |buf| > 0 && start == Cell(off, |buf|) && sz == |buf| - start + end && end <= |buf|
    ensures start + (sz - end) == |buf| && Get(buf, off, sz) == buf[start..start + (sz - end)] + buf[..end]
  {
    hide At, Cell, Get;
    GetWrapped(buf, off, |buf| - start, end);
    assert buf[start..] == buf[start..start + (sz - end)];
  }

  lemma WrappedPut(buf: seq<byte>, off: nat, n: nat, start: nat, m: nat)
    requires |buf| > 0 && start == Cell(off, |buf|) && n == |buf| - start + m && m <= start
    ensures Put(buf, off, Zeros(n)) == Zeros(m) + buf[m..start] + Zeros(|buf| - start)
  {
    hide Put, At, Cell, Zeros;
    ClearWrapped(buf, off, |buf| - start, m);
  }

  lemma WordsLeft(r: nat, start: nat, end: nat, sz: nat)
    requires r % WORD == 0 && start % WORD == 0 && start < r && sz == r - start + end && CeilWord(sz) < r
    ensures CeilWord(sz) == (r - start) + CeilWord(end) && CeilWord(end) < start && end <= CeilWord(end)
  {
    hide CeilWord, WordsOf;
    WordDiff(r, start);
    CeilSplit(r - start, end);
    CeilAbove(end);
  }

  lemma WordDiff(a: nat, b: nat)
    requires a % WORD == 0 && b % WORD == 0 && b <= a
    ensures (a - b) % WORD == 0
  {
  }

  lemma CeilAbove(n: nat)
    ensures n <= CeilWord(n)
  {
  }

  lemma AfterWords(a: nat, n: nat)
    requires a % WORD == 0
    ensures (a + WORD + CeilWord(n)) % WORD == 0
  {
    hide CeilWord;
    assert CeilWord(n) == WORD * WordsOf(n);
  }

  method TakeFlat(a: array<byte>, off: nat, sz: nat) returns (data: seq<byte>)
    requires a.Length > 0 && Cell(off, a.Length) + CeilWord(sz) <= a.Length
    modifies a
    ensures data == old(Get(a[..], off, sz))
    ensures a[..] == Put(old(a[..]), off, Zeros(CeilWord(sz)))
  {
    hide Put, At, Cell;
    var start := Cell(off, a.Length);
    GetFlat(a[..], off, sz);
    PutFlat(a[..], off, Zeros(CeilWord(sz)));
    data := a[..][start..start + sz];
    Memset(a, start, CeilWord(sz));
  }

  lemma WrapEnd(off: nat, sz: nat, r: nat)
    requires r > 0 && sz < r && Cell(off, r) + sz >= r
    ensures Cell(off + sz, r) == Cell(off, r) + sz - r
  {
    hide Cell;
    var k := r - Cell(off, r);
    WrapCell(off, k, r);
    CellPlus(off + k, sz - k, r);
  }

  // ---- rows of store steps ----

  ghost function StoreNext(s: State, i: nat): State
    requires |s.buf| > 0 && i < |s.msgs| && s.msgs[i].words * WORD + WORD <= |Frame(s.msgs[i])|
  {
    var m := s.msgs[i];
    var at := m.words * WORD;
    s.(buf := Put(s.buf, m.off + at, Frame(m)[at..at + WORD]), msgs := s.msgs[i := m.(words := m.words + 1)])
  }

  /** The state after a writer has stored all the words of its message, one step at a time. */
  ghost function StoreAll(s: State, i: nat): State
    requires |s.buf| > 0 && i < |s.msgs|
    decreases |Frame(s.msgs[i])| - s.msgs[i].words * WORD
  {
    if s.msgs[i].words * WORD + WORD <= |Frame(s.msgs[i])| then
      assert Frame(StoreNext(s, i).msgs[i]) == Frame(s.msgs[i]);
      StoreAll(StoreNext(s, i), i)
    else s
  }

  /** Storing the words one by one, with the invariant kept at every step, amounts to one
      store of the whole frame. */
  lemma {:induction false} StoreAllIsOnePut(s: State, i: nat)
    requires Inv(s) && i < |s.msgs|
    ensures |Frame(s.msgs[i])| == Size(s.msgs[i]) && s.msgs[i].words <= NumWords(s.msgs[i])
    ensures StoreAll(s, i) == s.(
      buf := Put(s.buf, s.msgs[i].off + s.msgs[i].words * WORD, Frame(s.msgs[i])[s.msgs[i].words * WORD..]),
      msgs := s.msgs[i := s.msgs[i].(words := NumWords(s.msgs[i]))])
    ensures Inv(StoreAll(s, i))
    decreases NumWords(s.msgs[i]) - s.msgs[i].words
  {
    hide Put, At, Unread, FreeIsZero, ReaderState, Pointers;
    var m := s.msgs[i];
    FrameSize(m);
    var at := m.words * WORD;
    if m.words < NumWords(m) {
      var s' := StoreNext(s, i);
      assert StoreWord(s, s', i);
      StoreWordInv(s, s', i);
      assert Frame(s'.msgs[i]) == Frame(m);
      StoreAllIsOnePut(s', i);
      PutConcat(s.buf, m.off + at, Frame(m)[at..at + WORD], Frame(m)[at + WORD..]);
      assert Frame(m)[at..at + WORD] + Frame(m)[at + WORD..] == Frame(m)[at..];
    } else {
      assert Frame(m)[at..] == [];
      assert Put(s.buf, m.off + at, []) == s.buf by { PutSame(s.buf, m.off + at, []); }
      assert s.msgs[i := m] == s.msgs;
    }
  }

  // ---- the queue ----

  class Ring {
    const buf: array<byte>
    var tail: nat
    var head: nat
    var pubLocal: nat
    var pubRemote: nat
    ghost var st: State

    ghost predicate Valid()
      reads this, buf
    {
      && Inv(st)
      && buf.Length % WORD == 0
      && st.buf == buf[..]
      && st.tail == tail && st.head == head && st.pubLocal == pubLocal && st.pubRemote == pubRemote
    }

    constructor (size: nat)
      requires WORD <= size < 0x1_0000_0000_0000_0000 && size % WORD == 0
      ensures Valid() && fresh(buf) && Init(st) && buf.Length == size
    {
      buf := new byte[size](_ => 0);
      tail, head, pubLocal, pubRemote := 0, 0, 0, 0;
      st := State(Zeros(size), 0, 0, 0, 0, [], 0, Idle, []);
      new;
      assert buf[..] == Zeros(size);
      InitInv(st);
    }

    /** The locked part of send: test for overflow, then move the tail past the message. */
    method TryReserve(data: seq<byte>, ghost pad: seq<byte>) returns (ok: bool, off: nat)
      requires Valid()
      requires 0 < |data| && MsgSize(|data|) < buf.Length
      requires |pad| == CeilWord(|data|) - |data|
      modifies this
      ensures Valid() && buf[..] == old(buf[..])
      ensures ok <==> !Overruns(buf.Length, old(tail), old(pubRemote), MsgSize(|data|))
      ensures !ok ==> st == old(st)
      ensures ok ==> off == old(tail) && Reserve(old(st), st, data, pad)
    {
      var msgSize := MsgSize(|data|);
      off := tail;
      ok := !Full(buf.Length, tail, pubRemote, msgSize);
      FullIffOverruns(buf.Length, tail, pubRemote, msgSize);
      if ok {
        tail := tail + msgSize;
        st := st.(tail := tail, msgs := st.msgs + [Msg(off, data, pad, 0)]);
        ReserveInv(old(st), st, data, pad);
      }
    }

    /** The unlocked part of a local send: header, payload in one or two pieces, footer.
        The padding is not stored; it is zero already. */
    method WriteLocal(ghost i: nat, off: nat, data: seq<byte>)
      requires Valid()
      requires i < |st.msgs| && st.msgs[i] == Msg(off, data, Zeros(CeilWord(|data|) - |data|), 0)
      modifies this`st, buf
      ensures Valid() && st == StoreAll(old(st), i)
    {
      hide At, Put, StoreAll, Frame, Unread, FreeIsZero, ReaderState;
      StoreAllIsOnePut(st, i);
      LocalFrame(st, i);
      OffsetAligned(st.msgs, buf.Length, i);
      assert Adjacent(st.msgs, i);
      StoreMessage(buf, off, data);
      st := StoreAll(st, i);
    }

    /** The unlocked part of a remote send: the message is staged in the thread's RDMA buffer,
        whose old bytes become the padding, then copied over in one or two RDMA writes. */
    method WriteRemote(ghost i: nat, off: nat, data: seq<byte>, stage: array<byte>)
      requires Valid() && stage != buf
      requires MsgSize(|data|) < stage.Length
      requires i < |st.msgs|
      requires st.msgs[i] == Msg(off, data, stage[WORD + |data|..WORD + CeilWord(|data|)], 0)
      modifies this`st, buf, stage
      ensures Valid() && st == StoreAll(old(st), i)
    {
      ghost var m, pad := st.msgs[i], stage[WORD + |data|..WORD + CeilWord(|data|)];
      StoreAllIsOnePut(st, i);
      var n := CeilWord(|data|);
      Stage(stage, data);
      var msg := stage[..MsgSize(|data|)];
      assert msg == Frame(m) == Frame(m)[0..];
      CopyIn(buf, off, msg);
      st := StoreAll(st, i);
    }

    /** Is there a message at the head? */
    method Check() returns (some: bool)
      requires Valid() && st.phase == Idle
      ensures some <==> st.read < |st.msgs| && st.msgs[st.read].words > 0
    {
      OffsetAligned(st.msgs, buf.Length, st.read);
      HeaderWord(st);
      var sz := LoadU64(buf, head);
      some := sz != 0;
    }

    /** First part of fetch: read the length from the header and zero it. */
    method FetchHeader() returns (sz: nat)
      requires Valid() && st.phase == Idle && WordAt(st.buf, head) != 0
      modifies this`st, buf
      ensures Valid() && TakeHeader(old(st), st) && st.phase == GotHeader(sz)
    {
      OffsetAligned(st.msgs, buf.Length, st.read);
      sz := LoadU64(buf, head);
      StoreU64(buf, head, 0);
      ZeroWord();
      st := st.(buf := buf[..], phase := GotHeader(sz));
      TakeHeaderInv(old(st), st);
    }

    /** One turn of the spin loop: the footer is either still zero or the length again. */
    method PollFooter(sz: nat) returns (done: bool)
      requires Valid() && st.phase == GotHeader(sz)
      modifies this`st, buf
      ensures Valid()
      ensures done ==> TakeFooter(old(st), st)
      ensures !done ==> st == old(st) && WordAt(st.buf, head + WORD + CeilWord(sz)) == 0
    {
      hide Inv, At, Put, WordAt, CeilWord, Encode;
      FooterReady(st, sz);
      var at := head + WORD + CeilWord(sz);
      var footer := LoadU64(buf, at);
      done := footer == sz;
      if done {
        StoreU64(buf, at, 0);
        ZeroWord();
        st := st.(buf := buf[..], phase := GotFooter(sz));
        TakeFooterInv(old(st), st);
      }
    }

    /** Last part of fetch: copy out and zero the payload, advance the head, publish it if it
        has moved by more than an eighth of the ring. */
    method FetchPayload(sz: nat) returns (data: seq<byte>)
      requires Valid() && st.phase == GotFooter(sz)
      modifies this, buf
      ensures Valid() && Drain(old(st), st)
      ensures data == old(st.msgs[st.read].data) && st.out == old(st.out) + [data]
    {
      hide Inv, At, Put, Get, CeilWord;
      PayloadReady(st, sz);
      data := CopyOutAndClear(buf, head + WORD, sz);
      head := head + 2 * WORD + CeilWord(sz);
      var threshold := buf.Length / 8;
      if head - pubLocal > threshold {
        pubLocal := head;
      }
      st := st.(buf := buf[..], head := head, pubLocal := pubLocal, read := st.read + 1, phase := Idle,
                out := st.out + [data]);
      DrainInv(old(st), st);
    }

    /** The published head reaches the writers. */
    method DeliverHead()
      requires Valid()
      modifies this`pubRemote, this`st
      ensures Valid() && Deliver(old(st), st)
    {
      pubRemote := pubLocal;
      st := st.(pubRemote := pubLocal);
      NextInv(old(st), st);
    }
  }

  /** What the reader relies on when it looks at the footer. */
  lemma FooterReady(s: State, sz: nat)
    requires Inv(s) && s.phase == GotHeader(sz)
    ensures |s.buf| > 0 && sz > 0 && (s.head + WORD + CeilWord(sz)) % WORD == 0
    ensures WordAt(s.buf, s.head + WORD + CeilWord(sz)) == 0 || WordAt(s.buf, s.head + WORD + CeilWord(sz)) == sz
  {
    hide At, Put, Unread, FreeIsZero, Frame, WordAt, CeilWord, WordsOf, MsgSize, NumWords;
    OffsetAligned(s.msgs, |s.buf|, s.read);
    assert Adjacent(s.msgs, s.read);
    AfterWords(s.head, sz);
    FooterWord(s);
  }

  /** What it relies on when it takes the payload. */
  lemma PayloadReady(s: State, sz: nat)
    requires Inv(s) && s.phase == GotFooter(sz)
    ensures |s.buf| > 0 && 0 < sz && CeilWord(sz) < |s.buf| && (s.head + WORD) % WORD == 0
    ensures s.pubLocal <= s.head && s.read < |s.msgs|
    ensures Get(s.buf, s.head + WORD, sz) == s.msgs[s.read].data
  {
    hide At, Put, Unread, FreeIsZero, Frame, Get;
    OffsetAligned(s.msgs, |s.buf|, s.read);
    assert Adjacent(s.msgs, s.read);
    PayloadBytes(s);
  }

  lemma ZeroWord()
    ensures Encode(0, WORD) == Zeros(WORD)
  {
    assert Encode(0, 8) == [0, 0, 0, 0, 0, 0, 0, 0];
  }

  /** Header, payload and footer stored separately are the whole frame when the padding
      cells hold zero already. */
  lemma LocalFrame(s: State, i: nat)
    requires Inv(s) && i < |s.msgs| && s.msgs[i].words == 0
    requires s.msgs[i].pad == Zeros(CeilWord(|s.msgs[i].data|) - |s.msgs[i].data|)
    ensures var m := s.msgs[i];
      var e := Encode(|m.data|, WORD);
      Put(Put(Put(s.buf, m.off, e), m.off + WORD, m.data), m.off + WORD + CeilWord(|m.data|), e)
      == Put(s.buf, m.off, Frame(m)[0..])
  {
    hide Put, At;
    var m := s.msgs[i];
    var e := Encode(|m.data|, WORD);
    var b := Put(Put(s.buf, m.off, e), m.off + WORD, m.data);
    var q := m.off + WORD + |m.data|;
    PutConcat(s.buf, m.off, e, m.data);
    UnfinishedIsUnread(s, i);
    InWindow(s, i);
    FrameSize(m);
    forall r | 0 <= r < |m.pad|
      ensures Get(b, q, |m.pad|)[r] == m.pad[r]
    {
      PutAt(s.buf, m.off, e + m.data, s.head, q + r);
      assert HoldsByte(s, i, WORD + |m.data| + r);
    }
    assert Get(b, q, |m.pad|) == m.pad;
    PutSame(b, q, m.pad);
    PutConcat(s.buf, m.off, e + m.data, m.pad);
    PutConcat(s.buf, m.off, e + m.data + m.pad, e);
    assert Frame(m)[0..] == e + m.data + m.pad + e;
  }

  /** Store header, payload and footer straight into the ring. */
  method StoreMessage(a: array<byte>, off: nat, data: seq<byte>)
    requires a.Length > 0 && a.Length % WORD == 0 && off % WORD == 0 && 0 < |data| <= a.Length
    modifies a
    ensures var e := Encode(|data|, WORD);
      a[..] == Put(Put(Put(old(a[..]), off, e), off + WORD, data), off + WORD + CeilWord(|data|), e)
  {
    hide At, Put;
    StoreU64(a, off, |data|);
    CopyIn(a, off + WORD, data);
    StoreU64(a, off + WORD + CeilWord(|data|), |data|);
  }

  /** Fill the staging buffer: header, payload, footer; the bytes in between stay. */
  method Stage(stage: array<byte>, data: seq<byte>)
    requires MsgSize(|data|) <= stage.Length
    modifies stage
    ensures stage[..MsgSize(|data|)] == Encode(|data|, WORD) + data
      + old(stage[WORD + |data|..WORD + CeilWord(|data|)]) + Encode(|data|, WORD)
  {
    StageBody(stage, data);
    ghost var n, body := CeilWord(|data|), stage[..WORD + CeilWord(|data|)];
    Memcpy(stage, WORD + CeilWord(|data|), Encode(|data|, WORD));
    assert stage[..WORD + n + WORD] == body + Encode(|data|, WORD);
  }

  method StageBody(stage: array<byte>, data: seq<byte>)
    requires MsgSize(|data|) <= stage.Length
    modifies stage
    ensures stage[..WORD + CeilWord(|data|)] == Encode(|data|, WORD) + data
      + old(stage[WORD + |data|..WORD + CeilWord(|data|)])
  {
    ghost var was, e := stage[..], Encode(|data|, WORD);
    Memcpy(stage, 0, Encode(|data|, WORD));
    assert stage[..] == e + was[WORD..];
    Memcpy(stage, WORD, data);
    assert stage[..] == e + data + was[WORD + |data|..];
  }
}
