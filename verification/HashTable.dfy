/**
 * The store's hash table (core/gstore.hpp): buckets of eight slots, seven for keys and the
 * last for a link to an overflow bucket.  A key's chain starts at the bucket its hash selects.
 *
 * A table stands for one list of entries per home bucket: the slots along the bucket's chain
 * hold the list in order, without gaps.
 */
module HashTable {

  datatype Key = Key(vid: nat, pid: nat, dir: nat)

  const EmptyKey := Key(0, 0, 0)

  datatype Ptr = Ptr(size: nat, off: nat, kind: nat)

  const NoPtr := Ptr(0, 0, 0)

  datatype Vertex = Vertex(key: Key, ptr: Ptr)

  const NoVertex := Vertex(EmptyKey, NoPtr)

  /** The shape of a table: its two regions and the overflow buckets in use. */
  datatype Shape = Shape(buckets: nat, ext: nat, lastExt: nat)

  /** Per home bucket, the buckets of its chain and the entries they hold. */
  datatype Content = Content(chains: seq<seq<nat>>, entries: seq<seq<Vertex>>)

  /** Where entry p of a chain is. */
  function SlotOf(chain: seq<nat>, p: nat): nat
    requires p < 7 * |chain|
  {
    chain[p / 7] * 8 + p % 7
  }

  function LinkOf(b: nat): nat { b * 8 + 7 }

  /** Chains start at home, grow by overflow buckets in use, and have strictly increasing ids. */
  ghost predicate ChainOk(sh: Shape, chain: seq<nat>, h: nat) {
    && chain != [] && chain[0] == h
    && (forall i :: 0 < i < |chain| ==> sh.buckets <= chain[i] < sh.buckets + sh.lastExt)
    && forall i, j :: 0 <= i < j < |chain| ==> chain[i] < chain[j]
  }

  /** No overflow bucket is on two chains. */
  ghost predicate Disjoint(chains: seq<seq<nat>>) {
    forall h, h', b :: 0 <= h < |chains| && 0 <= h' < |chains| && b in chains[h] && b in chains[h'] ==> h == h'
  }

  /** The entries fill the chain up to somewhere in its last bucket. */
  ghost predicate Dense(chain: seq<nat>, entries: seq<Vertex>) {
    |entries| <= 7 * |chain| && (|chain| > 1 ==> 7 * (|chain| - 1) < |entries|)
  }

  ghost predicate InPlace(v: seq<Vertex>, chain: seq<nat>, entries: seq<Vertex>) {
    && (forall p: nat :: p < 7 * |chain| ==> SlotOf(chain, p) < |v|)
    && (forall p: nat :: p < 7 * |chain| ==> v[SlotOf(chain, p)] == if p < |entries| then entries[p] else NoVertex)
  }

  ghost predicate Linked(v: seq<Vertex>, chain: seq<nat>) {
    && (forall i :: 0 <= i < |chain| ==> LinkOf(chain[i]) < |v|)
    && forall i :: 0 <= i < |chain| ==>
         v[LinkOf(chain[i])] == if i + 1 < |chain| then Vertex(Key(chain[i + 1], 0, 0), NoPtr) else NoVertex
  }

  ghost predicate KeysOk(entries: seq<Vertex>, hash: Key -> nat, buckets: nat, h: nat)
    requires buckets > 0
  {
    && (forall p :: 0 <= p < |entries| ==> entries[p].key != EmptyKey && hash(entries[p].key) % buckets == h)
    && forall p, q :: 0 <= p < q < |entries| ==> entries[p].key != entries[q].key
  }

  ghost predicate Unused(v: seq<Vertex>, sh: Shape) {
    forall s :: 8 * (sh.buckets + sh.lastExt) <= s < |v| ==> v[s] == NoVertex
  }

  ghost predicate HomeOk(v: seq<Vertex>, sh: Shape, hash: Key -> nat, chain: seq<nat>, entries: seq<Vertex>, h: nat)
    requires sh.buckets > 0
  {
    ChainOk(sh, chain, h) && Dense(chain, entries) && InPlace(v, chain, entries) && Linked(v, chain) && KeysOk(entries, hash, sh.buckets, h)
  }

  ghost predicate TableOk(v: seq<Vertex>, sh: Shape, hash: Key -> nat, c: Content) {
    && sh.buckets > 0 && sh.lastExt <= sh.ext && |v| == 8 * (sh.buckets + sh.ext)
    && |c.chains| == |c.entries| == sh.buckets
    && (forall h: nat :: h < sh.buckets ==> HomeOk(v, sh, hash, c.chains[h], c.entries[h], h))
    && Disjoint(c.chains) && Unused(v, sh) && AllChained(c.chains, sh)
  }

  /** Every bucket in use is on a chain. */
  ghost predicate AllChained(chains: seq<seq<nat>>, sh: Shape) {
    forall b: nat :: b < sh.buckets + sh.lastExt ==> Chained(chains, b)
  }

  ghost predicate Chained(chains: seq<seq<nat>>, b: nat) { exists h: nat :: OnSome(chains, h, b) }

  ghost predicate OnSome(chains: seq<seq<nat>>, h: nat, b: nat) { h < |chains| && b in chains[h] }

  function Home(hash: Key -> nat, sh: Shape, k: Key): (h: nat)
    requires sh.buckets > 0
    ensures h < sh.buckets
  {
    hash(k) % sh.buckets
  }

  // ---- what the table maps keys to ----

  ghost predicate HasKey(entries: seq<Vertex>, k: Key) { exists p :: 0 <= p < |entries| && entries[p].key == k }

  /** The map that the table stands for. */
  ghost predicate Refines(c: Content, buckets: nat, hash: Key -> nat, m: map<Key, Ptr>)
    requires buckets > 0 && |c.entries| == buckets
  {
    && (forall k :: k in m <==> HasKey(c.entries[hash(k) % buckets], k))
    && forall h, p :: 0 <= h < buckets && 0 <= p < |c.entries[h]| ==>
         c.entries[h][p].key in m && m[c.entries[h][p].key] == c.entries[h][p].ptr
  }

  // ---- one slot changes ----

  /** Writing outside a chain's slots does not disturb the chain. */
  lemma HomeKept(v: seq<Vertex>, v': seq<Vertex>, sh: Shape, sh': Shape, hash: Key -> nat, chain: seq<nat>, entries: seq<Vertex>, h: nat)
    requires sh.buckets > 0 && HomeOk(v, sh, hash, chain, entries, h)
    requires |v'| == |v| && sh'.buckets == sh.buckets && sh'.lastExt >= sh.lastExt
    requires forall i, s :: 0 <= i < |chain| && chain[i] * 8 <= s < chain[i] * 8 + 8 && s < |v| ==> v'[s] == v[s]
    ensures HomeOk(v', sh', hash, chain, entries, h)
  {
    forall p: nat | p < 7 * |chain|
      ensures v'[SlotOf(chain, p)] == v[SlotOf(chain, p)]
    {
      assert chain[p / 7] * 8 <= SlotOf(chain, p) < chain[p / 7] * 8 + 8;
    }
    forall i | 0 <= i < |chain|
      ensures v'[LinkOf(chain[i])] == v[LinkOf(chain[i])]
    {
      assert chain[i] * 8 <= LinkOf(chain[i]) < chain[i] * 8 + 8;
    }
  }

  /** Different positions of a chain are different slots, and none is a link. */
  lemma SlotsDiffer(sh: Shape, chain: seq<nat>, h: nat, p: nat, q: nat)
    requires ChainOk(sh, chain, h) && p < q < 7 * |chain|
    ensures SlotOf(chain, p) != SlotOf(chain, q)
  {
    if p / 7 < q / 7 { assert chain[p / 7] < chain[q / 7]; }
  }

  lemma SlotNotLink(chain: seq<nat>, p: nat, b: nat)
    requires p < 7 * |chain|
    ensures SlotOf(chain, p) != LinkOf(b)
  {
  }

  /** Entry p of home h is replaced or added, in a slot that is there already. */
  ghost predicate Written(v: seq<Vertex>, v': seq<Vertex>, c: Content, c': Content, h: nat, p: nat, x: Vertex) {
    && h < |c.chains| == |c.entries| && p < 7 * |c.chains[h]| && p <= |c.entries[h]|
    && SlotOf(c.chains[h], p) < |v| && v' == v[SlotOf(c.chains[h], p) := x]
    && c' == Content(c.chains, c.entries[h := if p < |c.entries[h]| then c.entries[h][p := x] else c.entries[h] + [x]])
  }

  lemma WrittenHome(v: seq<Vertex>, v': seq<Vertex>, sh: Shape, hash: Key -> nat, chain: seq<nat>, entries: seq<Vertex>, h: nat, p: nat, x: Vertex)
    requires sh.buckets > 0 && HomeOk(v, sh, hash, chain, entries, h) && p < 7 * |chain| && p <= |entries|
    requires x.key != EmptyKey && hash(x.key) % sh.buckets == h
    requires forall q :: 0 <= q < |entries| && q != p ==> entries[q].key != x.key
    requires v' == v[SlotOf(chain, p) := x]
    ensures HomeOk(v', sh, hash, chain, if p < |entries| then entries[p := x] else entries + [x], h)
  {
    var e := if p < |entries| then entries[p := x] else entries + [x];
    forall q: nat | q < 7 * |chain|
      ensures v'[SlotOf(chain, q)] == if q < |e| then e[q] else NoVertex
    {
      if q < p { SlotsDiffer(sh, chain, h, q, p); }
      if p < q { SlotsDiffer(sh, chain, h, p, q); }
    }
    assert Linked(v', chain) by { LinksKept(v, v', chain, p, x); }
    assert KeysOk(e, hash, sh.buckets, h) by { KeysKept(entries, e, hash, sh.buckets, h, p, x); }
  }

  lemma LinksKept(v: seq<Vertex>, v': seq<Vertex>, chain: seq<nat>, p: nat, x: Vertex)
    requires Linked(v, chain) && p < 7 * |chain| && SlotOf(chain, p) < |v| && v' == v[SlotOf(chain, p) := x]
    ensures Linked(v', chain)
  {
    forall i | 0 <= i < |chain|
      ensures v'[LinkOf(chain[i])] == v[LinkOf(chain[i])]
    {
      SlotNotLink(chain, p, chain[i]);
    }
  }

  lemma KeysKept(entries: seq<Vertex>, e: seq<Vertex>, hash: Key -> nat, buckets: nat, h: nat, p: nat, x: Vertex)
    requires buckets > 0 && KeysOk(entries, hash, buckets, h) && x.key != EmptyKey && hash(x.key) % buckets == h
    requires forall q :: 0 <= q < |entries| && q != p ==> entries[q].key != x.key
    requires p <= |entries| && e == if p < |entries| then entries[p := x] else entries + [x]
    ensures KeysOk(e, hash, buckets, h)
  {
  }

  lemma WrittenOk(v: seq<Vertex>, v': seq<Vertex>, sh: Shape, hash: Key -> nat, c: Content, c': Content, h: nat, p: nat, x: Vertex)
    requires TableOk(v, sh, hash, c) && Written(v, v', c, c', h, p, x)
    requires x.key != EmptyKey && hash(x.key) % sh.buckets == h
    requires forall q :: 0 <= q < |c.entries[h]| && q != p ==> c.entries[h][q].key != x.key
    ensures TableOk(v', sh, hash, c')
  {
    hide HomeOk;
    var chain := c.chains[h];
    var b := chain[p / 7];
    WrittenHome(v, v', sh, hash, chain, c.entries[h], h, p, x);
    ChainFacts(v, sh, hash, chain, c.entries[h], h);
    forall h': nat | h' < sh.buckets
      ensures HomeOk(v', sh, hash, c'.chains[h'], c'.entries[h'], h')
    {
      if h' != h {
        forall i, s | 0 <= i < |c.chains[h']| && c.chains[h'][i] * 8 <= s < c.chains[h'][i] * 8 + 8 && s < |v|
          ensures v'[s] == v[s]
        {
          assert b in chain && c.chains[h'][i] in c.chains[h'] && c.chains[h'][i] != b;
        }
        HomeKept(v, v', sh, sh, hash, c.chains[h'], c.entries[h'], h');
      }
    }
  }

  /** The buckets of a chain are in use. */
  lemma ChainFacts(v: seq<Vertex>, sh: Shape, hash: Key -> nat, chain: seq<nat>, entries: seq<Vertex>, h: nat)
    requires sh.buckets > 0 && h < sh.buckets && HomeOk(v, sh, hash, chain, entries, h)
    ensures chain != [] && chain[0] == h && forall i :: 0 <= i < |chain| ==> chain[i] < sh.buckets + sh.lastExt
    ensures ChainOk(sh, chain, h) && Dense(chain, entries)
  {
  }

  /** A full chain gets a new bucket, with the new entry in its first slot. */
  ghost predicate Grown(v: seq<Vertex>, v': seq<Vertex>, sh: Shape, sh': Shape, c: Content, c': Content, h: nat, x: Vertex) {
    && h < |c.chains| == |c.entries| && c.chains[h] != [] && |c.entries[h]| == 7 * |c.chains[h]|
    && var chain := c.chains[h];
       var b, last := sh.buckets + sh.lastExt, chain[|chain| - 1];
       && LinkOf(last) < |v| && b * 8 < |v|
       && v' == v[LinkOf(last) := Vertex(Key(b, 0, 0), NoPtr)][b * 8 := x]
       && c' == Content(c.chains[h := chain + [b]], c.entries[h := c.entries[h] + [x]])
       && sh' == sh.(lastExt := sh.lastExt + 1) && sh.lastExt < sh.ext
  }

  lemma GrownHome(v: seq<Vertex>, v': seq<Vertex>, sh: Shape, sh': Shape, hash: Key -> nat, chain: seq<nat>, entries: seq<Vertex>, h: nat, x: Vertex)
    requires sh.buckets > 0 && h < sh.buckets && HomeOk(v, sh, hash, chain, entries, h) && |entries| == 7 * |chain|
    requires x.key != EmptyKey && hash(x.key) % sh.buckets == h && forall q :: 0 <= q < |entries| ==> entries[q].key != x.key
    requires sh.lastExt < sh.ext && |v| == 8 * (sh.buckets + sh.ext) && Unused(v, sh) && sh' == sh.(lastExt := sh.lastExt + 1)
    requires v' == v[LinkOf(chain[|chain| - 1]) := Vertex(Key(sh.buckets + sh.lastExt, 0, 0), NoPtr)][(sh.buckets + sh.lastExt) * 8 := x]
    ensures HomeOk(v', sh', hash, chain + [sh.buckets + sh.lastExt], entries + [x], h)
  {
    var b := sh.buckets + sh.lastExt;
    var chain', e := chain + [b], entries + [x];
    assert forall i :: 0 <= i < |chain| ==> chain[i] < b;
    forall q: nat | q < 7 * |chain'|
      ensures SlotOf(chain', q) < |v| && v'[SlotOf(chain', q)] == if q < |e| then e[q] else NoVertex
    {
      if q < 7 * |chain| {
        assert SlotOf(chain', q) == SlotOf(chain, q);
        SlotNotLink(chain, q, chain[|chain| - 1]);
        assert chain[q / 7] < b;
      } else {
        assert chain'[q / 7] == b;
      }
    }
    GrownLinks(v, v', sh, chain, b, x);
  }

  lemma GrownLinks(v: seq<Vertex>, v': seq<Vertex>, sh: Shape, chain: seq<nat>, b: nat, x: Vertex)
    requires chain != [] && Linked(v, chain) && b == sh.buckets + sh.lastExt && sh.lastExt < sh.ext
    requires |v| == 8 * (sh.buckets + sh.ext) && Unused(v, sh)
    requires forall i :: 0 <= i < |chain| ==> chain[i] < b
    requires forall i, j :: 0 <= i < j < |chain| ==> chain[i] < chain[j]
    requires v' == v[LinkOf(chain[|chain| - 1]) := Vertex(Key(b, 0, 0), NoPtr)][b * 8 := x]
    ensures Linked(v', chain + [b])
  {
    var chain' := chain + [b];
    forall i | 0 <= i < |chain'|
      ensures LinkOf(chain'[i]) < |v'|
      ensures v'[LinkOf(chain'[i])] == if i + 1 < |chain'| then Vertex(Key(chain'[i + 1], 0, 0), NoPtr) else NoVertex
    {
      if i < |chain| - 1 { assert chain[i] < chain[|chain| - 1]; }
    }
  }

  lemma GrownOk(v: seq<Vertex>, v': seq<Vertex>, sh: Shape, sh': Shape, hash: Key -> nat, c: Content, c': Content, h: nat, x: Vertex)
    requires TableOk(v, sh, hash, c) && Grown(v, v', sh, sh', c, c', h, x)
    requires x.key != EmptyKey && hash(x.key) % sh.buckets == h
    requires forall q :: 0 <= q < |c.entries[h]| ==> c.entries[h][q].key != x.key
    ensures TableOk(v', sh', hash, c')
  {
    hide HomeOk;
    var chain := c.chains[h];
    var b, last := sh.buckets + sh.lastExt, chain[|chain| - 1];
    GrownHome(v, v', sh, sh', hash, chain, c.entries[h], h, x);
    AllChainsInUse(v, sh, hash, c);
    forall h': nat | h' < sh.buckets
      ensures HomeOk(v', sh', hash, c'.chains[h'], c'.entries[h'], h')
    {
      if h' != h {
        forall i, s | 0 <= i < |c.chains[h']| && c.chains[h'][i] * 8 <= s < c.chains[h'][i] * 8 + 8 && s < |v|
          ensures v'[s] == v[s]
        {
          assert last in chain && c.chains[h'][i] in c.chains[h'] && c.chains[h'][i] != last && c.chains[h'][i] != b;
        }
        HomeKept(v, v', sh, sh', hash, c.chains[h'], c.entries[h'], h');
      }
    }
    assert Unused(v', sh');
    GrownChained(c.chains, sh, sh', h);
  }

  lemma GrownChained(chains: seq<seq<nat>>, sh: Shape, sh': Shape, h: nat)
    requires AllChained(chains, sh) && h < |chains| && sh' == sh.(lastExt := sh.lastExt + 1)
    ensures AllChained(chains[h := chains[h] + [sh.buckets + sh.lastExt]], sh')
  {
    var chains' := chains[h := chains[h] + [sh.buckets + sh.lastExt]];
    forall b: nat | b < sh'.buckets + sh'.lastExt
      ensures Chained(chains', b)
    {
      if b == sh.buckets + sh.lastExt {
        assert OnSome(chains', h, b);
      } else {
        assert Chained(chains, b);
        var x: nat :| OnSome(chains, x, b);
        assert OnSome(chains', x, b);
      }
    }
  }

  lemma AllChainsInUse(v: seq<Vertex>, sh: Shape, hash: Key -> nat, c: Content)
    requires TableOk(v, sh, hash, c)
    ensures forall h, b :: 0 <= h < |c.chains| && b in c.chains[h] ==> b < sh.buckets + sh.lastExt
  {
    hide HomeOk;
    forall h, b | 0 <= h < |c.chains| && b in c.chains[h]
      ensures b < sh.buckets + sh.lastExt
    {
      ChainFacts(v, sh, hash, c.chains[h], c.entries[h], h);
    }
  }

  lemma InModel(c: Content, buckets: nat, hash: Key -> nat, m: map<Key, Ptr>, h: nat, p: nat)
    requires 0 < buckets == |c.entries| && Refines(c, buckets, hash, m) && h < buckets && p < |c.entries[h]|
    ensures c.entries[h][p].key in m && m[c.entries[h][p].key] == c.entries[h][p].ptr
  {
  }

  lemma NotInModel(c: Content, buckets: nat, hash: Key -> nat, m: map<Key, Ptr>, h: nat, k: Key)
    requires 0 < buckets == |c.entries| && Refines(c, buckets, hash, m) && h == hash(k) % buckets
    requires forall p :: 0 <= p < |c.entries[h]| ==> c.entries[h][p].key != k
    ensures k !in m
  {
  }

  /** A new or replaced entry is a new or replaced binding. */
  lemma RefinesWrite(c: Content, c': Content, buckets: nat, hash: Key -> nat, m: map<Key, Ptr>, h: nat, p: nat, x: Vertex)
    requires 0 < buckets == |c.entries| && Refines(c, buckets, hash, m) && h < buckets && p <= |c.entries[h]|
    requires c'.entries == c.entries[h := if p < |c.entries[h]| then c.entries[h][p := x] else c.entries[h] + [x]]
    requires hash(x.key) % buckets == h
    requires p < |c.entries[h]| ==> c.entries[h][p].key == x.key
    requires forall q :: 0 <= q < |c.entries[h]| && q != p ==> c.entries[h][q].key != x.key
    requires forall h', q :: 0 <= h' < buckets && 0 <= q < |c.entries[h']| ==> hash(c.entries[h'][q].key) % buckets == h'
    ensures Refines(c', buckets, hash, m[x.key := x.ptr])
  {
    var m' := m[x.key := x.ptr];
    var e, e' := c.entries[h], c'.entries[h];
    assert e'[p] == x;
    forall k
      ensures k in m' <==> HasKey(c'.entries[hash(k) % buckets], k)
    {
      if hash(k) % buckets == h && k != x.key {
        if HasKey(e, k) {
          var q :| 0 <= q < |e| && e[q].key == k;
          assert e'[q].key == k;
        }
        if HasKey(e', k) {
          var q :| 0 <= q < |e'| && e'[q].key == k;
          assert e[q].key == k;
        }
      }
    }
  }

  /** There is a bucket c on the chain of home h. */
  ghost predicate OnChain(c: Content, h: nat, i: nat) {
    h < |c.chains| == |c.entries| && i < |c.chains[h]|
  }

  lemma SlotContent(v: seq<Vertex>, sh: Shape, hash: Key -> nat, c: Content, h: nat, i: nat, k: nat)
    requires TableOk(v, sh, hash, c) && OnChain(c, h, i) && k < 7
    ensures c.chains[h][i] * 8 + k == SlotOf(c.chains[h], 7 * i + k) < |v|
    ensures v[c.chains[h][i] * 8 + k] == if 7 * i + k < |c.entries[h]| then c.entries[h][7 * i + k] else NoVertex
    ensures 7 * i + k < |c.entries[h]| ==> c.entries[h][7 * i + k].key != EmptyKey
  {
    assert HomeOk(v, sh, hash, c.chains[h], c.entries[h], h);
    assert (7 * i + k) / 7 == i && (7 * i + k) % 7 == k;
  }

  lemma LinkContent(v: seq<Vertex>, sh: Shape, hash: Key -> nat, c: Content, h: nat, i: nat)
    requires TableOk(v, sh, hash, c) && OnChain(c, h, i)
    ensures LinkOf(c.chains[h][i]) < |v|
    ensures v[LinkOf(c.chains[h][i])] == if i + 1 < |c.chains[h]| then Vertex(Key(c.chains[h][i + 1], 0, 0), NoPtr) else NoVertex
    ensures i + 1 < |c.chains[h]| ==> c.chains[h][i] < c.chains[h][i + 1] && c.chains[h][i + 1] > 0
  {
    assert HomeOk(v, sh, hash, c.chains[h], c.entries[h], h);
  }

  /** The first bucket of a chain, and what the sizes say at its last. */
  lemma HomeContent(v: seq<Vertex>, sh: Shape, hash: Key -> nat, c: Content, h: nat)
    requires TableOk(v, sh, hash, c) && h < sh.buckets
    ensures OnChain(c, h, 0) && c.chains[h][0] == h
    ensures |c.entries[h]| <= 7 * |c.chains[h]|
    ensures forall q :: 0 <= q < |c.entries[h]| ==> hash(c.entries[h][q].key) % sh.buckets == h
  {
    assert HomeOk(v, sh, hash, c.chains[h], c.entries[h], h);
  }

  lemma AllHomes(v: seq<Vertex>, sh: Shape, hash: Key -> nat, c: Content)
    requires TableOk(v, sh, hash, c)
    ensures sh.buckets > 0 && |c.chains| == |c.entries| == sh.buckets && |v| == 8 * (sh.buckets + sh.ext)
    ensures forall h, q :: 0 <= h < sh.buckets && 0 <= q < |c.entries[h]| ==> hash(c.entries[h][q].key) % sh.buckets == h
    ensures forall h, q :: 0 <= h < sh.buckets && 0 <= q < |c.entries[h]| ==> c.entries[h][q].key != EmptyKey
    ensures forall h, p, q :: 0 <= h < sh.buckets && 0 <= p < q < |c.entries[h]| ==> c.entries[h][p].key != c.entries[h][q].key
  {
    forall h: nat | h < sh.buckets
      ensures KeysOk(c.entries[h], hash, sh.buckets, h)
    {
      assert HomeOk(v, sh, hash, c.chains[h], c.entries[h], h);
    }
  }

  /** The next overflow bucket is empty. */
  lemma FreshBucket(v: seq<Vertex>, sh: Shape, hash: Key -> nat, c: Content)
    requires TableOk(v, sh, hash, c) && sh.lastExt < sh.ext
    ensures (sh.buckets + sh.lastExt) * 8 < |v| && v[(sh.buckets + sh.lastExt) * 8] == NoVertex
  {
  }

  lemma NewSlot(chain: seq<nat>, b: nat)
    ensures SlotOf(chain + [b], 7 * |chain|) == b * 8
  {
    assert 7 * |chain| / 7 == |chain| && 7 * |chain| % 7 == 0;
  }

  ghost function NoContent(buckets: nat): (c: Content)
    ensures |c.chains| == |c.entries| == buckets
    ensures forall h :: 0 <= h < buckets ==> c.chains[h] == [h] && c.entries[h] == []
  {
    Content(seq(buckets, h => [h]), seq(buckets, _ => []))
  }

  lemma StartOk(v: seq<Vertex>, sh: Shape, hash: Key -> nat)
    requires sh.buckets > 0 && sh.lastExt == 0 && |v| == 8 * (sh.buckets + sh.ext) && forall s :: 0 <= s < |v| ==> v[s] == NoVertex
    ensures TableOk(v, sh, hash, NoContent(sh.buckets)) && Refines(NoContent(sh.buckets), sh.buckets, hash, map[])
  {
    var c := NoContent(sh.buckets);
    forall h: nat | h < sh.buckets
      ensures HomeOk(v, sh, hash, c.chains[h], c.entries[h], h) && Chained(c.chains, h)
    {
      assert OnSome(c.chains, h, h);
    }
  }

  // ---- how many overflow buckets a set of keys takes ----

  ghost function AtHome(keys: set<Key>, hash: Key -> nat, buckets: nat, h: nat): set<Key>
    requires buckets > 0
  {
    set k | k in keys && hash(k) % buckets == h
  }

  /** The buckets of the home are all full. */
  ghost predicate HomeFull(keys: set<Key>, hash: Key -> nat, buckets: nat, h: nat)
    requires buckets > 0
  {
    var n := |AtHome(keys, hash, buckets, h)|;
    n > 0 && n % 7 == 0
  }

  /** A home has room for seven keys, and every overflow bucket for seven more. */
  function Overflow(n: nat): nat { if n == 0 then 0 else (n - 1) / 7 }

  ghost function DemandTo(keys: set<Key>, hash: Key -> nat, buckets: nat, m: nat): nat
    requires buckets > 0
  {
    if m == 0 then 0 else DemandTo(keys, hash, buckets, m - 1) + Overflow(|AtHome(keys, hash, buckets, m - 1)|)
  }

  /** The overflow buckets that the keys take, in whatever order they come. */
  ghost function Demand(keys: set<Key>, hash: Key -> nat, buckets: nat): nat
    requires buckets > 0
  {
    DemandTo(keys, hash, buckets, buckets)
  }

  lemma {:induction false} KeyCount(entries: seq<Vertex>, keys: set<Key>)
    requires forall p, q :: 0 <= p < q < |entries| ==> entries[p].key != entries[q].key
    requires forall k :: k in keys <==> HasKey(entries, k)
    ensures |entries| == |keys|
    decreases |entries|
  {
    if entries == [] {
      assert keys == {};
    } else {
      var n := |entries| - 1;
      var front, last := entries[..n], entries[n].key;
      assert HasKey(entries, last);
      forall k
        ensures k in keys - {last} <==> HasKey(front, k)
      {
        if HasKey(front, k) {
          var p :| 0 <= p < n && front[p].key == k;
          assert entries[p].key == k;
        }
        if k in keys - {last} {
          var p :| 0 <= p <= n && entries[p].key == k;
          assert front[p].key == k;
        }
      }
      KeyCount(front, keys - {last});
    }
  }

  lemma FullChain(v: seq<Vertex>, sh: Shape, hash: Key -> nat, c: Content, m: map<Key, Ptr>, h: nat)
    requires TableOk(v, sh, hash, c) && Refines(c, sh.buckets, hash, m) && h < sh.buckets
    ensures ChainFull(c, h) <==> HomeFull(m.Keys, hash, sh.buckets, h)
  {
    var chain, entries := c.chains[h], c.entries[h];
    assert HomeOk(v, sh, hash, chain, entries, h);
    var keys := AtHome(m.Keys, hash, sh.buckets, h);
    forall k
      ensures k in keys <==> HasKey(entries, k)
    {
      if HasKey(entries, k) {
        var p :| 0 <= p < |entries| && entries[p].key == k;
        assert entries[p].key in m;
      }
    }
    KeyCount(entries, keys);
    SevenFull(|entries|, |chain|);
  }

  lemma SevenFull(n: nat, m: nat)
    requires 0 < m && n <= 7 * m && (m > 1 ==> 7 * (m - 1) < n)
    ensures n == 7 * m <==> n > 0 && n % 7 == 0
  {
  }

  lemma OverflowNext(n: nat)
    ensures Overflow(n + 1) == Overflow(n) + if n > 0 && n % 7 == 0 then 1 else 0
  {
  }

  lemma {:induction false} OverflowMore(a: nat, b: nat)
    requires a <= b
    ensures Overflow(a) <= Overflow(b)
    decreases b
  {
    if a < b {
      OverflowMore(a, b - 1);
      OverflowNext(b - 1);
    }
  }

  lemma AtHomeMore(keys: set<Key>, k: Key, hash: Key -> nat, buckets: nat, h: nat)
    requires buckets > 0 && k !in keys
    ensures |AtHome(keys + {k}, hash, buckets, h)| == |AtHome(keys, hash, buckets, h)| + if hash(k) % buckets == h then 1 else 0
  {
    var a, b := AtHome(keys, hash, buckets, h), AtHome(keys + {k}, hash, buckets, h);
    if hash(k) % buckets == h { assert b == a + {k}; } else { assert b == a; }
  }

  /** One more key takes one more overflow bucket exactly if its home is full. */
  lemma {:induction false} DemandMore(keys: set<Key>, k: Key, hash: Key -> nat, buckets: nat, m: nat)
    requires buckets > 0 && k !in keys
    ensures DemandTo(keys + {k}, hash, buckets, m) ==
      DemandTo(keys, hash, buckets, m) + if hash(k) % buckets < m && HomeFull(keys, hash, buckets, hash(k) % buckets) then 1 else 0
    decreases m
  {
    hide AtHome, Overflow;
    if m > 0 {
      DemandMore(keys, k, hash, buckets, m - 1);
      AtHomeMore(keys, k, hash, buckets, m - 1);
      OverflowNext(|AtHome(keys, hash, buckets, m - 1)|);
    }
  }

  lemma {:induction false} DemandGrows(a: set<Key>, b: set<Key>, hash: Key -> nat, buckets: nat, m: nat)
    requires buckets > 0 && a <= b
    ensures DemandTo(a, hash, buckets, m) <= DemandTo(b, hash, buckets, m)
  {
    if m > 0 {
      DemandGrows(a, b, hash, buckets, m - 1);
      SubsetCount(AtHome(a, hash, buckets, m - 1), AtHome(b, hash, buckets, m - 1));
      OverflowMore(|AtHome(a, hash, buckets, m - 1)|, |AtHome(b, hash, buckets, m - 1)|);
    }
  }

  lemma {:induction false} SubsetCount(a: set<Key>, b: set<Key>)
    requires a <= b
    ensures |a| <= |b|
    decreases |a|
  {
    if a != {} {
      var k :| k in a;
      SubsetCount(a - {k}, b - {k});
    }
  }

  lemma {:induction false} NoDemand(hash: Key -> nat, buckets: nat, m: nat)
    requires buckets > 0
    ensures DemandTo({}, hash, buckets, m) == 0
  {
    if m > 0 {
      NoDemand(hash, buckets, m - 1);
      assert AtHome({}, hash, buckets, m - 1) == {};
    }
  }

  // ---- scanning the table ----

  ghost predicate IsData(s: nat) { s % 8 != 7 }

  /** The used data slots below n, in order. */
  ghost predicate AtSlots(v: seq<Vertex>, used: seq<Vertex>, at: seq<nat>, n: nat) {
    && |used| == |at| && n <= |v|
    && (forall i :: 0 <= i < |at| ==> at[i] < n && IsData(at[i]) && v[at[i]] == used[i] && used[i].key != EmptyKey)
    && (forall i, j :: 0 <= i < j < |at| ==> at[i] < at[j])
    && forall s: nat :: s < n && IsData(s) && v[s].key != EmptyKey ==> s in at
  }

  lemma NextSlot(v: seq<Vertex>, used: seq<Vertex>, at: seq<nat>, n: nat)
    requires AtSlots(v, used, at, n) && n < |v| && IsData(n) && v[n].key != EmptyKey
    ensures AtSlots(v, used + [v[n]], at + [n], n + 1)
  {
  }

  lemma SkipSlots(v: seq<Vertex>, used: seq<Vertex>, at: seq<nat>, b: nat, i: nat)
    requires i <= 7 && AtSlots(v, used, at, b * 8 + i) && b * 8 + 8 <= |v|
    requires forall s :: b * 8 + i <= s < b * 8 + 7 ==> v[s].key == EmptyKey
    ensures AtSlots(v, used, at, (b + 1) * 8)
  {
    forall s: nat | b * 8 + i <= s < (b + 1) * 8 && IsData(s)
      ensures v[s].key == EmptyKey
    {
      assert s != b * 8 + 7;
    }
  }

  lemma TableSize(v: seq<Vertex>, sh: Shape, hash: Key -> nat, c: Content)
    requires TableOk(v, sh, hash, c)
    ensures 8 * (sh.buckets + sh.lastExt) <= |v|
  {
  }

  /** The bucket is number i on the chain of home h. */
  lemma BucketOnChain(v: seq<Vertex>, sh: Shape, hash: Key -> nat, c: Content, b: nat) returns (h: nat, i: nat)
    requires TableOk(v, sh, hash, c) && b < sh.buckets + sh.lastExt
    ensures h < sh.buckets && OnChain(c, h, i) && c.chains[h][i] == b
  {
    hide HomeOk;
    assert Chained(c.chains, b);
    h :| OnSome(c.chains, h, b);
    i :| 0 <= i < |c.chains[h]| && c.chains[h][i] == b;
  }

  lemma RestEmpty(v: seq<Vertex>, sh: Shape, hash: Key -> nat, c: Content, b: nat, k: nat)
    requires TableOk(v, sh, hash, c) && b < sh.buckets + sh.lastExt && k < 7 && b * 8 + 8 <= |v| && v[b * 8 + k].key == EmptyKey
    ensures forall s :: b * 8 + k <= s < b * 8 + 7 ==> v[s].key == EmptyKey
  {
    hide TableOk;
    var h, i := BucketOnChain(v, sh, hash, c, b);
    SlotContent(v, sh, hash, c, h, i, k);
    forall s | b * 8 + k <= s < b * 8 + 7
      ensures v[s].key == EmptyKey
    {
      SlotContent(v, sh, hash, c, h, i, s - b * 8);
    }
  }

  /** A used data slot holds an entry of the home of its key. */
  lemma SlotIsEntry(v: seq<Vertex>, sh: Shape, hash: Key -> nat, c: Content, s: nat) returns (p: nat)
    requires TableOk(v, sh, hash, c) && s < 8 * (sh.buckets + sh.lastExt) && s < |v| && IsData(s) && v[s].key != EmptyKey
    ensures sh.buckets == |c.entries| == |c.chains| > 0
    ensures var h := hash(v[s].key) % sh.buckets;
      p < |c.entries[h]| && p < 7 * |c.chains[h]| && c.entries[h][p] == v[s] && SlotOf(c.chains[h], p) == s
  {
    hide TableOk, SlotOf;
    var b, k := s / 8, s % 8;
    var h, i := BucketOnChain(v, sh, hash, c, b);
    SlotContent(v, sh, hash, c, h, i, k);
    p := 7 * i + k;
    AllHomes(v, sh, hash, c);
    HomeContent(v, sh, hash, c, h);
  }

  lemma SlotsAreModel(v: seq<Vertex>, sh: Shape, hash: Key -> nat, c: Content, m: map<Key, Ptr>, used: seq<Vertex>, at: seq<nat>)
    requires TableOk(v, sh, hash, c) && |c.entries| == sh.buckets > 0 && Refines(c, sh.buckets, hash, m)
    requires AtSlots(v, used, at, 8 * (sh.buckets + sh.lastExt))
    ensures forall i :: 0 <= i < |used| ==> used[i].key in m && m[used[i].key] == used[i].ptr
    ensures forall i, j :: 0 <= i < j < |used| ==> used[i].key != used[j].key
    ensures forall k :: k in m ==> exists i :: 0 <= i < |used| && used[i].key == k
  {
    hide TableOk, Refines;
    AllHomes(v, sh, hash, c);
    forall i | 0 <= i < |used|
      ensures used[i].key in m && m[used[i].key] == used[i].ptr
    {
      var p := SlotIsEntry(v, sh, hash, c, at[i]);
      InModel(c, sh.buckets, hash, m, hash(used[i].key) % sh.buckets, p);
    }
    forall i, j | 0 <= i < j < |used|
      ensures used[i].key != used[j].key
    {
      var p := SlotIsEntry(v, sh, hash, c, at[i]);
      var q := SlotIsEntry(v, sh, hash, c, at[j]);
    }
    forall k | k in m
      ensures exists i :: 0 <= i < |used| && used[i].key == k
    {
      var s := KeySlot(v, sh, hash, c, m, k);
      assert s in at;
      var i :| 0 <= i < |at| && at[i] == s;
      assert used[i].key == k;
    }
  }

  lemma KeySlot(v: seq<Vertex>, sh: Shape, hash: Key -> nat, c: Content, m: map<Key, Ptr>, k: Key) returns (s: nat)
    requires TableOk(v, sh, hash, c) && |c.entries| == sh.buckets > 0 && Refines(c, sh.buckets, hash, m) && k in m
    ensures s < 8 * (sh.buckets + sh.lastExt) && s < |v| && IsData(s) && v[s].key == k != EmptyKey
  {
    hide TableOk;
    var h := hash(k) % sh.buckets;
    assert HasKey(c.entries[h], k);
    var p: nat :| p < |c.entries[h]| && c.entries[h][p].key == k;
    s := EntrySlot(v, sh, hash, c, h, p);
  }

  lemma EntrySlot(v: seq<Vertex>, sh: Shape, hash: Key -> nat, c: Content, h: nat, p: nat) returns (s: nat)
    requires TableOk(v, sh, hash, c) && h < sh.buckets == |c.entries| && p < |c.entries[h]|
    ensures s < 8 * (sh.buckets + sh.lastExt) && s < |v| && IsData(s) && v[s] == c.entries[h][p] && v[s].key != EmptyKey
  {
    hide TableOk;
    HomeContent(v, sh, hash, c, h);
    var i, k := p / 7, p % 7;
    SlotContent(v, sh, hash, c, h, i, k);
    s := c.chains[h][i] * 8 + k;
    AllChainsInUse(v, sh, hash, c);
    assert c.chains[h][i] in c.chains[h];
  }

  datatype Inserted = At(slot: nat) | Duplicate | OutOfBuckets

  class VertexTable {
    const hash: Key -> nat
    const numBuckets: nat
    const numBucketsExt: nat
    const vertices: array<Vertex>
    var lastExt: nat

    ghost var content: Content
    ghost var model: map<Key, Ptr>

    ghost function Sh(): Shape
      reads this
    {
      Shape(numBuckets, numBucketsExt, lastExt)
    }

    ghost predicate Valid()
      reads this, vertices
    {
      && numBuckets > 0 && lastExt <= numBucketsExt && |content.entries| == numBuckets
      && TableOk(vertices[..], Sh(), hash, content) && Refines(content, numBuckets, hash, model)
    }

    ghost function HomeOf(k: Key): (h: nat)
      requires numBuckets > 0
      reads this
      ensures h < numBuckets
    {
      hash(k) % numBuckets
    }

    constructor (buckets: nat, ext: nat, hash: Key -> nat)
      requires buckets > 0
      ensures Valid() && model == map[] && fresh(vertices)
      ensures numBuckets == buckets && numBucketsExt == ext && this.hash == hash
      ensures lastExt == 0
    {
      numBuckets, numBucketsExt, lastExt, this.hash := buckets, ext, 0, hash;
      vertices := new Vertex[8 * (buckets + ext)](_ => NoVertex);
      content := NoContent(buckets);
      model := map[];
      new;
      StartOk(vertices[..], Sh(), hash);
    }

    /** Look at the slots of a bucket up to the key or the first empty one. */
    method ScanBucket(bucket: nat, key: Key, ghost h: nat, ghost c: nat) returns (i: nat)
      requires Valid() && key != EmptyKey && OnChain(content, h, c) && bucket == content.chains[h][c]
      requires 7 * c <= |content.entries[h]|
      requires forall q :: 0 <= q < 7 * c ==> content.entries[h][q].key != key
      ensures i <= 7 && 7 * c + i <= |content.entries[h]|
      ensures i < 7 && 7 * c + i < |content.entries[h]| ==> content.entries[h][7 * c + i].key == key
      ensures forall q :: 0 <= q < 7 * c + i ==> content.entries[h][q].key != key
      ensures i < 7 ==> bucket * 8 + i == SlotOf(content.chains[h], 7 * c + i) < vertices.Length
      ensures i < 7 ==> vertices[bucket * 8 + i] == if 7 * c + i < |content.entries[h]| then content.entries[h][7 * c + i] else NoVertex
    {
      hide TableOk, Refines, SlotOf;
      ghost var entries := content.entries[h];
      for k := 0 to 7
        invariant 7 * c + k <= |entries|
        invariant forall q :: 0 <= q < 7 * c + k ==> entries[q].key != key
      {
        SlotContent(vertices[..], Sh(), hash, content, h, c, k);
        if vertices[bucket * 8 + k].key == key { return k; }
        if vertices[bucket * 8 + k].key == EmptyKey { return k; }
      }
      return 7;
    }

    /** Put the key into the first free slot of its chain. */
    method FillSlot(key: Key, slot: nat, ghost h: nat, ghost p: nat)
      requires Valid() && key != EmptyKey && numBuckets > 0 && h == HomeOf(key) && h < |content.chains| == |content.entries|
      requires p == |content.entries[h]| < 7 * |content.chains[h]| && slot == SlotOf(content.chains[h], p) < vertices.Length
      requires vertices[slot] == NoVertex
      requires forall q :: 0 <= q < p ==> content.entries[h][q].key != key
      modifies this`content, this`model, vertices
      ensures Valid() && key !in old(model) && model == old(model)[key := NoPtr]
      ensures IsEntry(content, h, p, slot, key) && vertices[slot] == content.entries[h][p] == Vertex(key, NoPtr)
    {
      hide TableOk, SlotOf;
      ghost var x := Vertex(key, NoPtr);
      ghost var before, c := vertices[..], content;
      AllHomes(before, Sh(), hash, c);
      vertices[slot] := Vertex(key, vertices[slot].ptr);
      content := Content(c.chains, c.entries[h := c.entries[h] + [x]]);
      model := model[key := NoPtr];
      WrittenOk(before, vertices[..], Sh(), hash, c, content, h, p, x);
      RefinesWrite(c, content, numBuckets, hash, old(model), h, p, x);
    }

    /** Put the key into the first slot of a new overflow bucket, linked to the chain's last. */
    method LinkNew(key: Key, bucket: nat, ghost h: nat) returns (slot: nat)
      requires Valid() && key != EmptyKey && numBuckets > 0 && h == HomeOf(key) && h < |content.chains| == |content.entries|
      requires content.chains[h] != [] && |content.entries[h]| == 7 * |content.chains[h]| && lastExt < numBucketsExt
      requires bucket == content.chains[h][|content.chains[h]| - 1] && LinkOf(bucket) < vertices.Length
      requires vertices[LinkOf(bucket)] == NoVertex
      requires forall q :: 0 <= q < |content.entries[h]| ==> content.entries[h][q].key != key
      modifies this, vertices
      ensures Valid() && key !in old(model) && model == old(model)[key := NoPtr]
      ensures slot < vertices.Length && IsEntry(content, h, old(|content.entries[h]|), slot, key)
      ensures vertices[slot] == content.entries[h][old(|content.entries[h]|)] == Vertex(key, NoPtr)
      ensures lastExt == old(lastExt) + 1
    {
      hide TableOk, SlotOf;
      ghost var x := Vertex(key, NoPtr);
      ghost var before, c, sh := vertices[..], content, Sh();
      AllHomes(before, sh, hash, c);
      FreshBucket(before, sh, hash, c);
      var link := bucket * 8 + 7;
      vertices[link] := Vertex(vertices[link].key.(vid := numBuckets + lastExt), vertices[link].ptr);
      lastExt := lastExt + 1;
      slot := vertices[link].key.vid * 8;
      vertices[slot] := Vertex(key, vertices[slot].ptr);
      content := Content(c.chains[h := c.chains[h] + [numBuckets + lastExt - 1]], c.entries[h := c.entries[h] + [x]]);
      model := model[key := NoPtr];
      GrownOk(before, vertices[..], sh, Sh(), hash, c, content, h, x);
      RefinesWrite(c, content, numBuckets, hash, old(model), h, |c.entries[h]|, x);
      NewSlot(c.chains[h], numBuckets + lastExt - 1);
    }

    /** Store the pointer of a key that has been inserted. */
    method SetPtr(slot: nat, ptr: Ptr, ghost h: nat, ghost p: nat, ghost key: Key)
      requires Valid() && numBuckets > 0 && h == HomeOf(key) && IsEntry(content, h, p, slot, key) && slot < vertices.Length
      requires vertices[slot] == content.entries[h][p]
      modifies this`content, this`model, vertices
      ensures Valid() && key in old(model) && model == old(model)[key := ptr]
    {
      hide TableOk, SlotOf;
      ghost var x := Vertex(key, ptr);
      ghost var before, c := vertices[..], content;
      AllHomes(before, Sh(), hash, c);
      vertices[slot] := vertices[slot].(ptr := ptr);
      content := Content(c.chains, c.entries[h := c.entries[h][p := x]]);
      model := model[key := ptr];
      WrittenOk(before, vertices[..], Sh(), hash, c, content, h, p, x);
      RefinesWrite(c, content, numBuckets, hash, old(model), h, p, x);
    }

    /** Whether the key is in the table. */
    method CheckKeyExist(key: Key) returns (found: bool)
      requires Valid() && key != EmptyKey
      ensures found <==> key in model
    {
      hide TableOk, SlotOf, Refines;
      ghost var h, c := HomeOf(key), 0;
      HomeContent(vertices[..], Sh(), hash, content, h);
      var bucket := hash(key) % numBuckets;
      while true
        invariant OnChain(content, h, c) && bucket == content.chains[h][c] && 7 * c <= |content.entries[h]|
        invariant forall q :: 0 <= q < 7 * c ==> content.entries[h][q].key != key
        decreases |content.chains[h]| - c
      {
        var i := ScanBucket(bucket, key, h, c);
        if i < 7 {
          if vertices[bucket * 8 + i].key == key {
            InModel(content, numBuckets, hash, model, h, 7 * c + i);
            return true;
          }
          NotInModel(content, numBuckets, hash, model, h, key);
          return false;
        }
        LinkContent(vertices[..], Sh(), hash, content, h, c);
        if vertices[bucket * 8 + 7].key == EmptyKey {
          NotInModel(content, numBuckets, hash, model, h, key);
          return false;
        }
        bucket := vertices[bucket * 8 + 7].key.vid;
        c := c + 1;
      }
    }

    /** The vertex with the given key; no vertex if there is none. */
    method GetVertexLocal(key: Key) returns (v: Vertex)
      requires Valid() && key != EmptyKey
      ensures v == if key in model then Vertex(key, model[key]) else NoVertex
    {
      hide TableOk, SlotOf;
      ghost var h, c := HomeOf(key), 0;
      HomeContent(vertices[..], Sh(), hash, content, h);
      var bucket := hash(key) % numBuckets;
      while true
        invariant OnChain(content, h, c) && bucket == content.chains[h][c]
        invariant forall q :: 0 <= q < 7 * c && q < |content.entries[h]| ==> content.entries[h][q].key != key
        decreases |content.chains[h]| - c
      {
        for i := 0 to 7
          invariant forall q :: 0 <= q < 7 * c + i && q < |content.entries[h]| ==> content.entries[h][q].key != key
        {
          SlotContent(vertices[..], Sh(), hash, content, h, c, i);
          if vertices[bucket * 8 + i].key == key { return vertices[bucket * 8 + i]; }
        }
        LinkContent(vertices[..], Sh(), hash, content, h, c);
        if vertices[bucket * 8 + 7].key == EmptyKey { return NoVertex; }
        bucket := vertices[bucket * 8 + 7].key.vid;
        c := c + 1;
      }
    }

    /** All used slots, bucket by bucket: every key of the table, once. */
    method UsedSlots() returns (used: seq<Vertex>)
      requires Valid()
      ensures forall i :: 0 <= i < |used| ==> used[i].key in model && model[used[i].key] == used[i].ptr
      ensures forall i, j :: 0 <= i < j < |used| ==> used[i].key != used[j].key
      ensures forall k :: k in model ==> exists i :: 0 <= i < |used| && used[i].key == k
    {
      hide TableOk, Refines, SlotOf;
      used := [];
      ghost var at: seq<nat> := [];
      for b := 0 to numBuckets + lastExt
        invariant AtSlots(vertices[..], used, at, b * 8)
      {
        TableSize(vertices[..], Sh(), hash, content);
        var i := 0;
        while i < 7 && vertices[b * 8 + i].key != EmptyKey
          invariant i <= 7 && AtSlots(vertices[..], used, at, b * 8 + i)
        {
          NextSlot(vertices[..], used, at, b * 8 + i);
          used, at := used + [vertices[b * 8 + i]], at + [b * 8 + i];
          i := i + 1;
        }
        if i < 7 { RestEmpty(vertices[..], Sh(), hash, content, b, i); }
        SkipSlots(vertices[..], used, at, b, i);
      }
      SlotsAreModel(vertices[..], Sh(), hash, content, model, used, at);
    }

    /** Follow the key's chain to the key, to the first free slot, or to the end of a full chain. */
    method Walk(key: Key) returns (bucket: nat, i: nat, ghost p: nat)
      requires Valid() && key != EmptyKey
      ensures var h := HomeOf(key);
        && OnChain(content, h, 0) && i <= 7 && p <= |content.entries[h]|
        && (forall q :: 0 <= q < p ==> content.entries[h][q].key != key)
        && (i < 7 ==> p < 7 * |content.chains[h]| && bucket * 8 + i == SlotOf(content.chains[h], p) < vertices.Length)
        && (i < 7 && p < |content.entries[h]| ==> content.entries[h][p].key == key && vertices[bucket * 8 + i] == content.entries[h][p])
        && (i < 7 && p == |content.entries[h]| ==> vertices[bucket * 8 + i] == NoVertex)
        && (i == 7 ==> p == |content.entries[h]| == 7 * |content.chains[h]|)
        && (i == 7 ==> bucket == content.chains[h][|content.chains[h]| - 1] && LinkOf(bucket) < vertices.Length)
        && (i == 7 ==> vertices[LinkOf(bucket)] == NoVertex)
    {
      hide TableOk, SlotOf, Refines;
      ghost var h, c := HomeOf(key), 0;
      HomeContent(vertices[..], Sh(), hash, content, h);
      bucket := hash(key) % numBuckets;
      while true
        invariant OnChain(content, h, c) && bucket == content.chains[h][c] && 7 * c <= |content.entries[h]|
        invariant forall q :: 0 <= q < 7 * c ==> content.entries[h][q].key != key
        decreases |content.chains[h]| - c
      {
        i := ScanBucket(bucket, key, h, c);
        p := 7 * c + i;
        if i < 7 { return; }
        LinkContent(vertices[..], Sh(), hash, content, h, c);
        if vertices[bucket * 8 + 7].key == EmptyKey { return; }
        bucket := vertices[bucket * 8 + 7].key.vid;
        c := c + 1;
      }
    }

    /** Put a key into the table, without a pointer yet.  It fails only for a key that is there
        already, when that is to be an error, or when no overflow bucket is left. */
    method InsertKey(key: Key, checkDup: bool) returns (r: Inserted, ghost p: nat)
      requires Valid() && key != EmptyKey
      modifies this, vertices
      ensures Valid()
      ensures r == Duplicate <==> checkDup && key in old(model)
      ensures r == OutOfBuckets <==>
        key !in old(model) && HomeFull(old(model.Keys), hash, numBuckets, HomeOf(key)) && old(lastExt) == numBucketsExt
      ensures model == if r.At? && key !in old(model) then old(model)[key := NoPtr] else old(model)
      ensures lastExt == old(lastExt) +
        if r.At? && key !in old(model) && HomeFull(old(model.Keys), hash, numBuckets, HomeOf(key)) then 1 else 0
      ensures r.At? ==> IsEntry(content, HomeOf(key), p, r.slot, key) && r.slot < vertices.Length
      ensures r.At? ==> key in model && vertices[r.slot] == content.entries[HomeOf(key)][p] == Vertex(key, model[key])
    {
      hide TableOk, SlotOf, Refines, HomeFull;
      ghost var h := HomeOf(key);
      FullChain(vertices[..], Sh(), hash, content, model, h);
      var bucket, i;
      bucket, i, p := Walk(key);
      if i < 7 {
        var slot := bucket * 8 + i;
        if vertices[slot].key == key {
          InModel(content, numBuckets, hash, model, h, p);
          if checkDup { return Duplicate, p; }
          return At(slot), p;
        }
        FillSlot(key, slot, h, p);
        return At(slot), p;
      }
      NotInModel(content, numBuckets, hash, model, h, key);
      if lastExt >= numBucketsExt { return OutOfBuckets, p; }
      var slot := LinkNew(key, bucket, h);
      return At(slot), p;
    }
  }

  /** No free slot is left on the chain of home h. */
  ghost predicate ChainFull(c: Content, h: nat) {
    h < |c.chains| == |c.entries| && |c.entries[h]| == 7 * |c.chains[h]|
  }

  /** Entry p of home h is in the given slot and has the given key. */
  ghost predicate IsEntry(c: Content, h: nat, p: nat, slot: nat, key: Key) {
    && h < |c.chains| == |c.entries| && p < |c.entries[h]| && p < 7 * |c.chains[h]|
    && SlotOf(c.chains[h], p) == slot && c.entries[h][p].key == key
  }
}
