/**
 * The RDMA ring buffer as a step machine (core/rdma_adaptor.hpp).
 *
 * One physical queue has several writers on one server and one reader.  Writers reserve
 * space under a lock, then store their message word by word in increasing address order;
 * the reader polls the header, waits for the footer, copies and zeroes the message, and
 * from time to time publishes its head to the writers.  Positions are stream offsets that
 * only grow; a position p lives in ring cell p % |buf|.
 */
module RingSpec {
  import opened Words

  // ---- ring memory addressed by stream position ----

  ghost predicate RingSize(r: nat) { WORD <= r < 0x1_0000_0000_0000_0000 }

  /** The ring cell of stream position p. */
  function Cell(p: nat, r: nat): (c: nat)
    requires r > 0
    ensures c < r
  {
    p % r
  }

  function At(buf: seq<byte>, p: nat): byte
    requires |buf| > 0
  {
    buf[Cell(p, |buf|)]
  }

  /** Store the bytes bs from position p on, wrapping around the ring. */
  function Put(buf: seq<byte>, p: nat, bs: seq<byte>): (r: seq<byte>)
    requires |buf| > 0
    ensures |r| == |buf|
    decreases |bs|
  {
    if bs == [] then buf else Put(buf[Cell(p, |buf|) := bs[0]], p + 1, bs[1..])
  }

  /** The n bytes from position p on. */
  function Get(buf: seq<byte>, p: nat, n: nat): (s: seq<byte>)
    requires |buf| > 0
    ensures |s| == n && forall i :: 0 <= i < n ==> s[i] == At(buf, p + i)
  {
    seq<byte>(n, i requires 0 <= i < n => At(buf, p + i))
  }

  /** The 64-bit word at position p. */
  function WordAt(buf: seq<byte>, p: nat): nat
    requires |buf| > 0
  {
    Decode(Get(buf, p, WORD))
  }

  lemma {:induction false} PutAt(buf: seq<byte>, p: nat, bs: seq<byte>, lo: nat, q: nat)
    requires |buf| > 0
    requires lo <= p && p + |bs| <= lo + |buf| && lo <= q < lo + |buf|
    ensures At(Put(buf, p, bs), q) == if p <= q < p + |bs| then bs[q - p] else At(buf, q)
    decreases |bs|
  {
    if bs != [] {
      PutAt(buf[Cell(p, |buf|) := bs[0]], p + 1, bs[1..], lo, q);
      if q < p {
        if Cell(q, |buf|) == Cell(p, |buf|) { SameCell(q, p, |buf|); }
      } else if p < q {
        if Cell(q, |buf|) == Cell(p, |buf|) { SameCell(p, q, |buf|); }
      }
    }
  }

  /** Within one ring length, Put changes exactly the positions it stores to. */
  lemma PutWindow(buf: seq<byte>, p: nat, bs: seq<byte>, lo: nat)
    requires |buf| > 0
    requires lo <= p && p + |bs| <= lo + |buf|
    ensures forall q :: lo <= q < lo + |buf| ==>
      At(Put(buf, p, bs), q) == if p <= q < p + |bs| then bs[q - p] else At(buf, q)
  {
    forall q | lo <= q < lo + |buf|
      ensures At(Put(buf, p, bs), q) == if p <= q < p + |bs| then bs[q - p] else At(buf, q)
    {
      PutAt(buf, p, bs, lo, q);
    }
  }

  lemma {:induction false} PutConcat(buf: seq<byte>, p: nat, a: seq<byte>, b: seq<byte>)
    requires |buf| > 0
    ensures Put(Put(buf, p, a), p + |a|, b) == Put(buf, p, a + b)
    decreases |a|
  {
    if a == [] {
      assert a + b == b;
    } else {
      PutConcat(buf[Cell(p, |buf|) := a[0]], p + 1, a[1..], b);
      assert (a + b)[1..] == a[1..] + b;
    }
  }

  // ---- messages ----

  /** A reserved message: stream offset, payload, padding up to a word, and the number of
      its words already stored in the ring. */
  datatype Msg = Msg(off: nat, data: seq<byte>, pad: seq<byte>, words: nat)

  /** Header word, padded payload, footer word. */
  function MsgSize(dataLen: nat): (n: nat)
    ensures n == WORD * (WordsOf(dataLen) + 2)
  {
    WORD + CeilWord(dataLen) + WORD
  }

  ghost function NumWords(m: Msg): nat { WordsOf(|m.data|) + 2 }

  ghost function Size(m: Msg): nat { WORD * NumWords(m) }

  ghost function End(m: Msg): nat { m.off + Size(m) }

  ghost function Frame(m: Msg): seq<byte> {
    Encode(|m.data|, WORD) + m.data + m.pad + Encode(|m.data|, WORD)
  }

  ghost predicate Wellformed(m: Msg, r: nat) {
    && 0 < |m.data|
    && |m.pad| == CeilWord(|m.data|) - |m.data|
    && Size(m) < r
    && m.words <= NumWords(m)
  }

  lemma FrameSize(m: Msg)
    requires |m.pad| == CeilWord(|m.data|) - |m.data|
    ensures |Frame(m)| == Size(m)
  {
  }

  // ---- the machine ----

  /** What the reader has done with the message at its head. */
  datatype Phase = Idle | GotHeader(sz: nat) | GotFooter(sz: nat)

  /** msgs holds every message ever reserved, in reservation order; the first `read` of them
      have been delivered to `out`. */
  datatype State = State(
    buf: seq<byte>,
    tail: nat,
    head: nat,
    pubLocal: nat,
    pubRemote: nat,
    msgs: seq<Msg>,
    read: nat,
    phase: Phase,
    out: seq<seq<byte>>)

  ghost predicate Init(s: State) {
    && RingSize(|s.buf|)
    && s == State(Zeros(|s.buf|), 0, 0, 0, 0, [], 0, Idle, [])
  }

  /** The writer's overflow test, against the head it was last told about. */
  function Full(ringSize: nat, tail: nat, pubRemote: nat, msgSize: nat): bool
    requires pubRemote <= tail
  {
    ringSize < tail - pubRemote + msgSize
  }

  /** A message of that size at the tail would use a cell again that, for all the writer knows, the
      reader has not read yet. */
  ghost predicate Overruns(ringSize: nat, tail: nat, pubRemote: nat, msgSize: nat)
    requires ringSize > 0
  {
    exists p: nat, q: nat :: tail <= p < tail + msgSize && pubRemote <= q < tail && Cell(p, ringSize) == Cell(q, ringSize)
  }

  /** The test refuses a message exactly if it would. */
  lemma FullIffOverruns(ringSize: nat, tail: nat, pubRemote: nat, msgSize: nat)
    requires pubRemote <= tail <= pubRemote + ringSize && msgSize < ringSize
    ensures Full(ringSize, tail, pubRemote, msgSize) <==> Overruns(ringSize, tail, pubRemote, msgSize)
  {
    if Full(ringSize, tail, pubRemote, msgSize) {
      CellAround(pubRemote, ringSize);
      var p, q := pubRemote + ringSize, pubRemote;
      assert tail <= p < tail + msgSize && pubRemote <= q < tail && Cell(p, ringSize) == Cell(q, ringSize);
    }
    if Overruns(ringSize, tail, pubRemote, msgSize) {
      var p: nat, q: nat :| tail <= p < tail + msgSize && pubRemote <= q < tail && Cell(p, ringSize) == Cell(q, ringSize);
      SameCell(q, p, ringSize);
    }
  }

  lemma CellAround(p: nat, r: nat)
    requires r > 0
    ensures Cell(p + r, r) == Cell(p, r)
  {
    AddRingMod(p, r);
  }

  /** The head the reader publishes: it moves only when it has lagged by more than 1/8. */
  function Publish(ringSize: nat, head: nat, published: nat): nat {
    if head - published > ringSize / 8 then head else published
  }

  ghost predicate Reserve(s: State, s': State, data: seq<byte>, pad: seq<byte>) {
    && 0 < |data|
    && |pad| == CeilWord(|data|) - |data|
    && MsgSize(|data|) < |s.buf|
    && s.pubRemote <= s.tail
    && !Full(|s.buf|, s.tail, s.pubRemote, MsgSize(|data|))
    && s' == s.(tail := s.tail + MsgSize(|data|), msgs := s.msgs + [Msg(s.tail, data, pad, 0)])
  }

  ghost predicate StoreWord(s: State, s': State, i: nat) {
    && |s.buf| > 0
    && i < |s.msgs|
    && var m := s.msgs[i];
       var at := m.words * WORD;
       && at + WORD <= |Frame(m)|
       && s' == s.(buf := Put(s.buf, m.off + at, Frame(m)[at..at + WORD]),
                   msgs := s.msgs[i := m.(words := m.words + 1)])
  }

  ghost predicate TakeHeader(s: State, s': State) {
    && |s.buf| > 0
    && s.phase == Idle
    && WordAt(s.buf, s.head) != 0
    && s' == s.(buf := Put(s.buf, s.head, Zeros(WORD)), phase := GotHeader(WordAt(s.buf, s.head)))
  }

  ghost predicate TakeFooter(s: State, s': State) {
    && |s.buf| > 0
    && s.phase.GotHeader?
    && var at := s.head + WORD + CeilWord(s.phase.sz);
       && WordAt(s.buf, at) == s.phase.sz
       && s' == s.(buf := Put(s.buf, at, Zeros(WORD)), phase := GotFooter(s.phase.sz))
  }

  ghost predicate Drain(s: State, s': State) {
    && |s.buf| > 0
    && s.phase.GotFooter?
    && var sz := s.phase.sz;
       var head' := s.head + MsgSize(sz);
       s' == s.(buf := Put(s.buf, s.head + WORD, Zeros(CeilWord(sz))),
                head := head',
                pubLocal := Publish(|s.buf|, head', s.pubLocal),
                read := s.read + 1,
                phase := Idle,
                out := s.out + [Get(s.buf, s.head + WORD, sz)])
  }

  ghost predicate Deliver(s: State, s': State) {
    s' == s.(pubRemote := s.pubLocal)
  }

  ghost predicate Next(s: State, s': State) {
    || (exists data, pad :: Reserve(s, s', data, pad))
    || (exists i :: StoreWord(s, s', i))
    || TakeHeader(s, s')
    || TakeFooter(s, s')
    || Drain(s, s')
    || Deliver(s, s')
  }

  // ---- invariant ----

  /** Byte r of message m's frame has been taken back by the reader, which is in phase ph. */
  ghost predicate Cleared(ph: Phase, m: Msg, r: nat) {
    match ph
    case Idle => false
    case GotHeader(_) => r < WORD
    case GotFooter(_) => r < WORD || r >= Size(m) - WORD
  }

  /** What the ring must hold for byte r of message m; cur says that m is at the reader's head. */
  ghost function Expect(ph: Phase, m: Msg, cur: bool, r: nat): byte {
    if r < m.words * WORD && r < |Frame(m)| && !(cur && Cleared(ph, m, r)) then Frame(m)[r] else 0
  }

  ghost predicate Layout(msgs: seq<Msg>, r: nat) {
    && (forall i :: 0 <= i < |msgs| ==> Wellformed(msgs[i], r))
    && (forall i :: 0 <= i < |msgs| ==> Adjacent(msgs, i))
  }

  ghost predicate Adjacent(msgs: seq<Msg>, i: nat)
    requires i < |msgs|
  {
    msgs[i].off == StreamEnd(msgs, i)
  }

  ghost function StreamEnd(msgs: seq<Msg>, n: nat): nat
    requires n <= |msgs|
  {
    if n == 0 then 0 else End(msgs[n - 1])
  }

  ghost predicate Pointers(s: State) {
    && s.read <= |s.msgs|
    && s.head == StreamEnd(s.msgs, s.read)
    && s.tail == StreamEnd(s.msgs, |s.msgs|)
    && s.pubRemote <= s.pubLocal <= s.head <= s.tail <= s.pubRemote + |s.buf|
    && s.head - s.pubLocal <= |s.buf| / 8
  }

  ghost predicate ReaderState(s: State)
    requires s.read <= |s.msgs|
  {
    && |s.out| == s.read
    && (forall i :: 0 <= i < s.read ==> s.out[i] == s.msgs[i].data && s.msgs[i].words == NumWords(s.msgs[i]))
    && (s.phase != Idle ==> s.read < |s.msgs| && s.phase.sz == |s.msgs[s.read].data| && s.msgs[s.read].words > 0)
    && (s.phase.GotFooter? ==> s.msgs[s.read].words == NumWords(s.msgs[s.read]))
  }

  ghost predicate HoldsByte(s: State, i: nat, r: nat)
    requires |s.buf| > 0 && i < |s.msgs|
  {
    At(s.buf, s.msgs[i].off + r) == Expect(s.phase, s.msgs[i], i == s.read, r)
  }

  ghost predicate Unread(s: State)
    requires |s.buf| > 0
  {
    forall i: nat, r: nat :: s.read <= i < |s.msgs| && r < Size(s.msgs[i]) ==> HoldsByte(s, i, r)
  }

  ghost predicate FreeIsZero(s: State)
    requires |s.buf| > 0
  {
    forall p :: s.tail <= p < s.head + |s.buf| ==> At(s.buf, p) == 0
  }

  ghost predicate Inv(s: State) {
    && RingSize(|s.buf|)
    && Layout(s.msgs, |s.buf|)
    && Pointers(s)
    && ReaderState(s)
    && Unread(s)
    && FreeIsZero(s)
  }

  lemma {:induction false} OffsetsGrow(msgs: seq<Msg>, r: nat, i: nat, j: nat)
    requires Layout(msgs, r) && i < j < |msgs|
    ensures End(msgs[i]) <= msgs[j].off
    decreases j
  {
    assert Adjacent(msgs, j);
    if i < j - 1 {
      OffsetsGrow(msgs, r, i, j - 1);
    }
  }

  /** Every unread message lies inside [head, tail). */
  lemma InWindow(s: State, i: nat)
    requires Layout(s.msgs, |s.buf|) && Pointers(s) && s.read <= i < |s.msgs|
    ensures s.head <= s.msgs[i].off && End(s.msgs[i]) <= s.tail <= s.head + |s.buf|
  {
    hide At, Put;
    assert Adjacent(s.msgs, i);
    if s.read > 0 { OffsetsGrow(s.msgs, |s.buf|, s.read - 1, i); }
    if i < |s.msgs| - 1 { OffsetsGrow(s.msgs, |s.buf|, i, |s.msgs| - 1); }
  }

  lemma InitInv(s: State)
    requires Init(s)
    ensures Inv(s)
  {
  }

  // ---- every step keeps the invariant ----

  lemma ReserveLayout(s: State, s': State, data: seq<byte>, pad: seq<byte>)
    requires Inv(s) && Reserve(s, s', data, pad)
    ensures Layout(s'.msgs, |s'.buf|)
  {
    hide At, Put;
    var n := |s.msgs|;
    forall i | 0 <= i <= n
      ensures Wellformed(s'.msgs[i], |s.buf|) && Adjacent(s'.msgs, i)
    {
      if i < n { assert s'.msgs[i] == s.msgs[i] && Adjacent(s.msgs, i); }
    }
  }

  lemma ReserveInv(s: State, s': State, data: seq<byte>, pad: seq<byte>)
    requires Inv(s) && Reserve(s, s', data, pad)
    ensures Inv(s')
  {
    hide At, Put;
    ReserveLayout(s, s', data, pad);
    var n := |s.msgs|;
    forall i: nat, r: nat | s'.read <= i < |s'.msgs| && r < Size(s'.msgs[i])
      ensures HoldsByte(s', i, r)
    {
      if i < n { assert HoldsByte(s, i, r); }
    }
  }

  lemma StoreWordLayout(s: State, s': State, i: nat)
    requires Inv(s) && StoreWord(s, s', i)
    ensures Layout(s'.msgs, |s'.buf|)
  {
    hide At, Put;
    FrameSize(s.msgs[i]);
    forall j | 0 <= j < |s.msgs|
      ensures Wellformed(s'.msgs[j], |s.buf|) && Adjacent(s'.msgs, j)
    {
      assert Adjacent(s.msgs, j);
    }
  }

  /** A message whose words are not all stored yet is still unread. */
  lemma UnfinishedIsUnread(s: State, i: nat)
    requires Inv(s) && i < |s.msgs| && s.msgs[i].words < NumWords(s.msgs[i])
    ensures s.read <= i
  {
    hide At, Put;
  }

  /** What a store leaves alone, and where it writes. */
  lemma StoreWordFacts(s: State, s': State, i: nat)
    requires Inv(s) && StoreWord(s, s', i)
    ensures s.read <= i < |s.msgs| && |Frame(s.msgs[i])| == Size(s.msgs[i])
    ensures s.head <= s.msgs[i].off && End(s.msgs[i]) <= s.tail
    ensures s.msgs[i].words * WORD + WORD <= Size(s.msgs[i])
    ensures s' == s.(buf := s'.buf, msgs := s'.msgs)
    ensures s'.buf == Put(s.buf, s.msgs[i].off + s.msgs[i].words * WORD,
                          Frame(s.msgs[i])[s.msgs[i].words * WORD..s.msgs[i].words * WORD + WORD])
    ensures |s'.msgs| == |s.msgs| && s'.msgs[i] == s.msgs[i].(words := s.msgs[i].words + 1)
    ensures forall j :: 0 <= j < |s.msgs| && j != i ==> s'.msgs[j] == s.msgs[j]
    ensures Frame(s'.msgs[i]) == Frame(s.msgs[i])
  {
    hide At, Put;
    FrameSize(s.msgs[i]);
    UnfinishedIsUnread(s, i);
    InWindow(s, i);
  }

  /** The bytes a writer stores touch no other unread byte. */
  lemma StoreWordOther(s: State, s': State, i: nat, j: nat, r: nat)
    requires Inv(s) && StoreWord(s, s', i) && s.read <= j < |s.msgs| && j != i && r < Size(s.msgs[j])
    ensures HoldsByte(s', j, r)
  {
    hide At, Put;
    StoreWordFacts(s, s', i);
    assert HoldsByte(s, j, r);
    var m := s.msgs[i];
    var at := m.words * WORD;
    InWindow(s, j);
    if j < i {
      OffsetsGrow(s.msgs, |s.buf|, j, i);
    } else {
      OffsetsGrow(s.msgs, |s.buf|, i, j);
    }
    PutAt(s.buf, m.off + at, Frame(m)[at..at + WORD], s.head, s.msgs[j].off + r);
  }

  /** The word a writer stores lands on its own message, which then holds one word more. */
  lemma StoreWordOwn(s: State, s': State, i: nat, r: nat)
    requires Inv(s) && StoreWord(s, s', i) && r < Size(s.msgs[i])
    ensures s.read <= i && HoldsByte(s', i, r)
  {
    hide At, Put, Frame, Expect;
    StoreWordFacts(s, s', i);
    assert HoldsByte(s, i, r);
    var m := s.msgs[i];
    var at := m.words * WORD;
    ExpectStore(s.phase, m, i == s.read, r);
    PutAt(s.buf, m.off + at, Frame(m)[at..at + WORD], s.head, m.off + r);
  }

  lemma ExpectStore(ph: Phase, m: Msg, cur: bool, r: nat)
    requires |Frame(m)| == Size(m) && m.words < NumWords(m) && r < Size(m)
    requires cur ==> !ph.GotFooter? && (ph.GotHeader? ==> m.words > 0)
    ensures Expect(ph, m.(words := m.words + 1), cur, r) ==
      if m.words * WORD <= r < m.words * WORD + WORD then Frame(m)[r] else Expect(ph, m, cur, r)
  {
    assert Frame(m.(words := m.words + 1)) == Frame(m);
  }

  lemma StoreWordFree(s: State, s': State, i: nat)
    requires Inv(s) && StoreWord(s, s', i)
    ensures FreeIsZero(s')
  {
    hide At, Put;
    StoreWordFacts(s, s', i);
    var m := s.msgs[i];
    var at := m.words * WORD;
    PutWindow(s.buf, m.off + at, Frame(m)[at..at + WORD], s.head);
  }

  lemma StoreWordReader(s: State, s': State, i: nat)
    requires Inv(s) && StoreWord(s, s', i)
    ensures Pointers(s') && ReaderState(s')
  {
    hide At, Put;
    StoreWordFacts(s, s', i);
  }

  lemma StoreWordInv(s: State, s': State, i: nat)
    requires Inv(s) && StoreWord(s, s', i)
    ensures Inv(s')
  {
    hide At, Put;
    StoreWordLayout(s, s', i);
    StoreWordReader(s, s', i);
    StoreWordFree(s, s', i);
    forall j: nat, r: nat | s.read <= j < |s.msgs| && r < Size(s.msgs[j])
      ensures HoldsByte(s', j, r)
    {
      if i == j { StoreWordOwn(s, s', i, r); } else { StoreWordOther(s, s', i, j, r); }
    }
  }

  // ---- what the reader sees ----

  /** Reading n bytes of an unread message gives the bytes its writer promised, or zero. */
  lemma ReadMessage(s: State, i: nat, lo: nat, n: nat, want: seq<byte>)
    requires Inv(s) && s.read <= i < |s.msgs| && lo + n <= Size(s.msgs[i])
    requires |want| == n && forall r :: 0 <= r < n ==> want[r] == Expect(s.phase, s.msgs[i], i == s.read, lo + r)
    ensures Get(s.buf, s.msgs[i].off + lo, n) == want
  {
    hide At, Put;
    forall r | 0 <= r < n
      ensures At(s.buf, s.msgs[i].off + lo + r) == want[r]
    {
      assert HoldsByte(s, i, lo + r);
    }
  }

  lemma WordBytes(n: nat)
    requires n < 0x1_0000_0000_0000_0000
    ensures Decode(Encode(n, WORD)) == n && Decode(Zeros(WORD)) == 0
  {
    assert Pow256(8) == 0x1_0000_0000_0000_0000;
    DecodeEncode(n, WORD);
    DecodeZeros(WORD);
  }

  /** The header poll: non-zero exactly when the next message has its first word, and then
      it is that message's length. */
  lemma HeaderWord(s: State)
    requires Inv(s) && s.phase == Idle
    ensures WordAt(s.buf, s.head) ==
      if s.read < |s.msgs| && s.msgs[s.read].words > 0 then |s.msgs[s.read].data| else 0
  {
    hide At, Put;
    if s.read == |s.msgs| {
      assert Get(s.buf, s.head, WORD) == Zeros(WORD);
      WordBytes(0);
    } else {
      var m := s.msgs[s.read];
      assert Adjacent(s.msgs, s.read);
      FrameSize(m);
      var want := if m.words > 0 then Encode(|m.data|, WORD) else Zeros(WORD);
      ReadMessage(s, s.read, 0, WORD, want);
      WordBytes(|m.data|);
    }
  }

  /** The footer poll: zero until the message is complete, then its length; so the reader's
      assertion inside the spin loop never fires. */
  lemma FooterWord(s: State)
    requires Inv(s) && s.phase.GotHeader?
    ensures WordAt(s.buf, s.head + WORD + CeilWord(s.phase.sz)) ==
      if s.msgs[s.read].words == NumWords(s.msgs[s.read]) then s.phase.sz else 0
  {
    hide At, Put;
    var m := s.msgs[s.read];
    assert Adjacent(s.msgs, s.read);
    FrameSize(m);
    var lo := Size(m) - WORD;
    var want := if m.words == NumWords(m) then Encode(|m.data|, WORD) else Zeros(WORD);
    ReadMessage(s, s.read, lo, WORD, want);
    WordBytes(|m.data|);
  }

  /** Once the footer is there, the payload bytes are exactly the sender's. */
  lemma PayloadBytes(s: State)
    requires Inv(s) && s.phase.GotFooter?
    ensures Get(s.buf, s.head + WORD, s.phase.sz) == s.msgs[s.read].data
  {
    hide At, Put;
    var m := s.msgs[s.read];
    assert Adjacent(s.msgs, s.read);
    FrameSize(m);
    ReadMessage(s, s.read, WORD, |m.data|, m.data);
  }

  // ---- the reader's steps ----

  /** Zeroing part of the current message changes no other byte of the window. */
  lemma ClearAt(s: State, lo: nat, n: nat, p: nat)
    requires Inv(s) && s.read < |s.msgs| && lo + n <= Size(s.msgs[s.read])
    requires s.head <= p < s.head + |s.buf|
    ensures At(Put(s.buf, s.head + lo, Zeros(n)), p) == if lo <= p - s.head < lo + n then 0 else At(s.buf, p)
  {
    hide At, Put;
    InWindow(s, s.read);
    PutAt(s.buf, s.head + lo, Zeros(n), s.head, p);
  }

  lemma ClearOther(s: State, lo: nat, n: nat, i: nat, r: nat)
    requires Inv(s) && s.read < i < |s.msgs| && lo + n <= Size(s.msgs[s.read]) && r < Size(s.msgs[i])
    ensures At(Put(s.buf, s.head + lo, Zeros(n)), s.msgs[i].off + r) == Expect(s.phase, s.msgs[i], false, r)
  {
    hide At, Put;
    InWindow(s, i);
    assert Adjacent(s.msgs, s.read);
    OffsetsGrow(s.msgs, |s.buf|, s.read, i);
    ClearAt(s, lo, n, s.msgs[i].off + r);
    assert HoldsByte(s, i, r);
  }

  /** Taking back part of the current message keeps the invariant, provided the new phase
      says which part was taken. */
  lemma ClearInv(s: State, s': State, lo: nat, n: nat, ph: Phase)
    requires Inv(s) && s.read < |s.msgs| && lo + n <= Size(s.msgs[s.read])
    requires s' == s.(buf := Put(s.buf, s.head + lo, Zeros(n)), phase := ph)
    requires ReaderState(s')
    requires forall r :: 0 <= r < Size(s.msgs[s.read]) ==>
      Expect(ph, s.msgs[s.read], true, r) == if lo <= r < lo + n then 0 else Expect(s.phase, s.msgs[s.read], true, r)
    ensures Inv(s')
  {
    hide At, Put;
    assert Adjacent(s.msgs, s.read);
    InWindow(s, s.read);
    forall i: nat, r: nat | s'.read <= i < |s'.msgs| && r < Size(s'.msgs[i])
      ensures HoldsByte(s', i, r)
    {
      if i == s.read {
        ClearAt(s, lo, n, s.head + r);
        assert HoldsByte(s, i, r);
      } else {
        ClearOther(s, lo, n, i, r);
        ExpectOther(s.phase, ph, s.msgs[i], r);
      }
    }
    forall p | s'.tail <= p < s'.head + |s'.buf|
      ensures At(s'.buf, p) == 0
    {
      ClearAt(s, lo, n, p);
    }
  }

  lemma ExpectOther(ph: Phase, ph': Phase, m: Msg, r: nat)
    ensures Expect(ph, m, false, r) == Expect(ph', m, false, r)
  {
  }

  lemma TakeHeaderInv(s: State, s': State)
    requires Inv(s) && TakeHeader(s, s')
    ensures Inv(s')
  {
    hide At, Put;
    HeaderWord(s);
    ClearInv(s, s', 0, WORD, s'.phase);
  }

  lemma TakeFooterInv(s: State, s': State)
    requires Inv(s) && TakeFooter(s, s')
    ensures Inv(s')
  {
    hide At, Put;
    FooterWord(s);
    ClearInv(s, s', Size(s.msgs[s.read]) - WORD, WORD, s'.phase);
  }

  /** After a message is drained its bytes are zero, also when they wrap into the free part. */
  lemma DrainFree(s: State, s': State, p: nat)
    requires Inv(s) && Drain(s, s') && s'.tail <= p < s'.head + |s'.buf|
    ensures At(s'.buf, p) == 0
  {
    hide Put, At, Cell;
    var n := CeilWord(s.phase.sz);
    assert Adjacent(s.msgs, s.read);
    InWindow(s, s.read);
    if p < s.head + |s.buf| {
      ClearAt(s, WORD, n, p);
    } else {
      var q := p - |s.buf|;
      NextLap(s'.buf, q);
      ClearAt(s, WORD, n, q);
      assert HoldsByte(s, s.read, q - s.head);
    }
  }

  lemma NextLap(buf: seq<byte>, p: nat)
    requires |buf| > 0
    ensures At(buf, p + |buf|) == At(buf, p)
  {
    AddRingMod(p, |buf|);
  }

  lemma DrainReader(s: State, s': State)
    requires Inv(s) && Drain(s, s')
    ensures Pointers(s') && ReaderState(s')
  {
    hide At, Put;
    PayloadBytes(s);
    assert Adjacent(s.msgs, s.read);
    InWindow(s, s.read);
  }

  lemma DrainInv(s: State, s': State)
    requires Inv(s) && Drain(s, s')
    ensures Inv(s')
  {
    hide At, Put;
    DrainReader(s, s');
    var n := CeilWord(s.phase.sz);
    assert n + 2 * WORD == Size(s.msgs[s.read]);
    forall i: nat, r: nat | s'.read <= i < |s'.msgs| && r < Size(s'.msgs[i])
      ensures HoldsByte(s', i, r)
    {
      ClearOther(s, WORD, n, i, r);
      ExpectIdle(s.phase, s'.msgs[i], i == s'.read, r);
    }
    forall p | s'.tail <= p < s'.head + |s'.buf|
      ensures At(s'.buf, p) == 0
    {
      DrainFree(s, s', p);
    }
  }

  lemma ExpectIdle(ph: Phase, m: Msg, cur: bool, r: nat)
    ensures Expect(ph, m, false, r) == Expect(Idle, m, cur, r)
  {
  }

  lemma NextInv(s: State, s': State)
    requires Inv(s) && Next(s, s')
    ensures Inv(s')
  {
    hide At, Put;
    if data, pad :| Reserve(s, s', data, pad) {
      ReserveInv(s, s', data, pad);
    } else if i :| StoreWord(s, s', i) {
      StoreWordInv(s, s', i);
    } else if TakeHeader(s, s') {
      TakeHeaderInv(s, s');
    } else if TakeFooter(s, s') {
      TakeFooterInv(s, s');
    } else if Drain(s, s') {
      DrainInv(s, s');
    } else {
      forall i: nat, r: nat | s'.read <= i < |s'.msgs| && r < Size(s'.msgs[i])
        ensures HoldsByte(s', i, r)
      {
        assert HoldsByte(s, i, r);
      }
    }
  }

  // ---- whole runs ----

  ghost predicate StepAt(run: seq<State>, i: nat)
    requires i + 1 < |run|
  {
    Next(run[i], run[i + 1])
  }

  /** A run from the empty queue, with any interleaving of writers and reader. */
  ghost predicate IsRun(run: seq<State>) {
    && |run| > 0
    && Init(run[0])
    && forall i :: 0 <= i < |run| - 1 ==> StepAt(run, i)
  }

  /** The payloads in reservation order. */
  ghost function Payloads(msgs: seq<Msg>): (ps: seq<seq<byte>>)
    ensures |ps| == |msgs|
  {
    seq(|msgs|, i requires 0 <= i < |msgs| => msgs[i].data)
  }

  lemma {:induction false} RunInv(run: seq<State>, k: nat)
    requires IsRun(run) && k < |run|
    ensures Inv(run[k])
  {
    if k == 0 {
      InitInv(run[0]);
    } else {
      RunInv(run, k - 1);
      assert StepAt(run, k - 1);
      NextInv(run[k - 1], run[k]);
    }
  }

  lemma NextKeepsPayloads(s: State, s': State)
    requires Inv(s) && Next(s, s')
    ensures Payloads(s.msgs) <= Payloads(s'.msgs) && s.out <= s'.out
  {
    hide At, Put;
  }

  /** What has been reserved or delivered stays so for the rest of the run. */
  lemma {:induction false} HistoryGrows(run: seq<State>, j: nat, k: nat)
    requires IsRun(run) && j <= k < |run|
    ensures Payloads(run[j].msgs) <= Payloads(run[k].msgs) && run[j].out <= run[k].out
  {
    if j < k {
      HistoryGrows(run, j, k - 1);
      RunInv(run, k - 1);
      assert StepAt(run, k - 1);
      NextKeepsPayloads(run[k - 1], run[k]);
    }
  }

  /** In every run the reader has received, byte for byte, a prefix of the messages in the
      order they were reserved, and every ring byte outside [head, tail) is zero. */
  lemma DeliveredInOrder(run: seq<State>, k: nat)
    requires IsRun(run) && k < |run|
    ensures run[k].out <= Payloads(run[k].msgs)
    ensures |run[k].buf| > 0
    ensures forall p :: run[k].tail <= p < run[k].head + |run[k].buf| ==> At(run[k].buf, p) == 0
  {
    RunInv(run, k);
  }

  /** A writer never stores over a byte that is not zero, so nothing unread is overwritten. */
  lemma StoresOnlyOverZero(run: seq<State>, k: nat, i: nat, p: nat)
    requires IsRun(run) && k + 1 < |run| && StoreWord(run[k], run[k + 1], i)
    requires run[k].msgs[i].off + run[k].msgs[i].words * WORD <= p
    requires p < run[k].msgs[i].off + run[k].msgs[i].words * WORD + WORD
    ensures At(run[k].buf, p) == 0 && run[k].head <= p < run[k].tail
  {
    hide At, Put;
    RunInv(run, k);
    StoreWordFacts(run[k], run[k + 1], i);
    assert HoldsByte(run[k], i, p - run[k].msgs[i].off);
  }

  /** A complete message at the head can always be fetched: no phase of the reader blocks,
      and the message it appends is the next reserved one. */
  lemma CompleteMessageIsFetched(s: State)
    requires Inv(s) && s.read < |s.msgs| && s.msgs[s.read].words == NumWords(s.msgs[s.read])
    ensures s.phase == Idle ==> WordAt(s.buf, s.head) == |s.msgs[s.read].data| != 0
    ensures s.phase.GotHeader? ==> WordAt(s.buf, s.head + WORD + CeilWord(s.phase.sz)) == s.phase.sz
    ensures s.phase.GotFooter? ==> Get(s.buf, s.head + WORD, s.phase.sz) == s.msgs[s.read].data
  {
    match s.phase
    case Idle => HeaderWord(s);
    case GotHeader(_) => FooterWord(s);
    case GotFooter(_) => PayloadBytes(s);
  }

  /** The reader does not publish at every message: each time, the head has come more than an
      eighth of the ring since, and the newest one is published. */
  lemma PublishesRarely(s: State, s': State)
    requires Inv(s) && Next(s, s') && s'.pubLocal != s.pubLocal
    ensures s'.pubLocal == s'.head && s'.pubLocal - s.pubLocal > |s.buf| / 8
  {
    hide Put, At, Unread, FreeIsZero, ReaderState, Layout;
  }

  /** The published head lags by at most one eighth of the ring; so once the queue is drained
      and the writers have heard of it, any message of up to seven eighths is accepted. */
  lemma DrainedQueueAccepts(run: seq<State>, k: nat, dataLen: nat)
    requires IsRun(run) && k < |run|
    requires run[k].head == run[k].tail && run[k].pubRemote == run[k].pubLocal
    requires MsgSize(dataLen) <= |run[k].buf| - |run[k].buf| / 8
    ensures run[k].head - run[k].pubLocal <= |run[k].buf| / 8
    ensures run[k].pubRemote <= run[k].tail && !Full(|run[k].buf|, run[k].tail, run[k].pubRemote, MsgSize(dataLen))
  {
    RunInv(run, k);
  }
}
