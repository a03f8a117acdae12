/**
 * Query ids (core/coder.hpp).  Every thread numbers its queries in steps of the total number
 * of threads, so that an id tells which server and thread gave it out.
 */
module Coder {

  const INT_MAX: int := 0x7FFF_FFFF

  /** The cluster: servers, and threads (proxies and engines) on each. */
  datatype Cluster = Cluster(servers: nat, threads: nat)

  predicate Sized(c: Cluster) { c.servers > 0 && c.threads > 0 }

  function Total(c: Cluster): (n: nat)
    ensures Sized(c) ==> n >= c.threads > 0
  {
    assert Sized(c) ==> c.servers * c.threads >= 1 * c.threads;
    c.servers * c.threads
  }

  /** The first id of a thread. */
  function Base(c: Cluster, sid: nat, tid: nat): nat { c.threads * sid + tid }

  lemma BaseBelow(c: Cluster, sid: nat, tid: nat)
    requires Sized(c) && sid < c.servers && tid < c.threads
    ensures Base(c, sid, tid) < Total(c)
  {
    assert c.threads * sid + c.threads == c.threads * (sid + 1);
    assert c.threads * (sid + 1) <= c.threads * c.servers;
  }

  function SidOf(c: Cluster, qid: nat): nat
    requires Sized(c)
  {
    (qid % Total(c)) / c.threads
  }

  function TidOf(c: Cluster, qid: nat): nat
    requires Sized(c)
  {
    qid % c.threads
  }

  /** The id was given out by thread tid of server sid. */
  predicate GivenBy(c: Cluster, qid: nat, sid: nat, tid: nat)
    requires Sized(c)
  {
    qid % Total(c) == Base(c, sid, tid)
  }

  lemma DivMod(a: int, q: int, m: nat, r: nat)
    requires r < m && a == q * m + r
    ensures a / m == q && a % m == r
  {
    var d := a / m - q;
    assert a == (a / m) * m + a % m;
    assert (a / m) * m - q * m == d * m;
    assert d >= 1 ==> d * m >= m;
    assert d <= -1 ==> d * m <= 0 - m;
  }

  /** Decoding an id gives back the server and thread that gave it out. */
  lemma DecodeOwner(c: Cluster, qid: nat, sid: nat, tid: nat)
    requires Sized(c) && sid < c.servers && tid < c.threads && GivenBy(c, qid, sid, tid)
    ensures SidOf(c, qid) == sid && TidOf(c, qid) == tid
  {
    DivMod(Base(c, sid, tid), sid, c.threads, tid);
    var k := qid / Total(c);
    var q := k * c.servers + sid;
    assert k * Total(c) == k * c.servers * c.threads;
    assert q * c.threads == k * c.servers * c.threads + sid * c.threads;
    DivMod(qid, q, c.threads, tid);
  }

  /** Different threads never give out the same id. */
  lemma OwnersDiffer(c: Cluster, qid: nat, sid: nat, tid: nat, sid': nat, tid': nat)
    requires Sized(c) && sid < c.servers && tid < c.threads && sid' < c.servers && tid' < c.threads
    requires GivenBy(c, qid, sid, tid) && GivenBy(c, qid, sid', tid')
    ensures sid == sid' && tid == tid'
  {
    DecodeOwner(c, qid, sid, tid);
    DecodeOwner(c, qid, sid', tid');
  }

  /** The id after a given one; a counter that would leave the int range starts again. */
  function NextQid(c: Cluster, qid: nat, sid: nat, tid: nat): (r: nat)
    requires Sized(c)
  {
    if qid + Total(c) > INT_MAX then Base(c, sid, tid) else qid + Total(c)
  }

  lemma NextGivenBy(c: Cluster, qid: nat, sid: nat, tid: nat)
    requires Sized(c) && sid < c.servers && tid < c.threads && GivenBy(c, qid, sid, tid)
    ensures GivenBy(c, NextQid(c, qid, sid, tid), sid, tid)
    ensures NextQid(c, qid, sid, tid) > qid <==> qid + Total(c) <= INT_MAX
  {
    BaseBelow(c, sid, tid);
    var n := Total(c);
    var k := qid / n;
    assert qid == k * n + Base(c, sid, tid);
    assert (k + 1) * n == k * n + n;
    assert k >= 0 ==> k * n >= 0;
    DivMod(qid + n, k + 1, n, Base(c, sid, tid));
    DivMod(Base(c, sid, tid), 0, n, Base(c, sid, tid));
  }

  class IdSource {
    const c: Cluster
    const sid: nat
    const tid: nat
    var qid: nat

    ghost predicate Valid()
      reads this
    {
      Sized(c) && sid < c.servers && tid < c.threads && GivenBy(c, qid, sid, tid) && qid <= INT_MAX
    }

    constructor (c: Cluster, sid: nat, tid: nat)
      requires Sized(c) && sid < c.servers && tid < c.threads && Total(c) <= INT_MAX
      ensures Valid() && qid == Base(c, sid, tid) && this.c == c && this.sid == sid && this.tid == tid
    {
      BaseBelow(c, sid, tid);
      DivMod(Base(c, sid, tid), 0, Total(c), Base(c, sid, tid));
      this.c, this.sid, this.tid := c, sid, tid;
      qid := c.threads * sid + tid;
    }

    /** Give out an id that decodes to this thread; ids grow until the counter wraps. */
    method GetAndIncQid() returns (id: nat)
      requires Valid() && Total(c) <= INT_MAX
      modifies this
      ensures Valid() && id == old(qid) && qid == NextQid(c, old(qid), sid, tid)
      ensures SidOf(c, id) == sid && TidOf(c, id) == tid
      ensures qid > id <==> id + Total(c) <= INT_MAX
    {
      DecodeOwner(c, qid, sid, tid);
      NextGivenBy(c, qid, sid, tid);
      BaseBelow(c, sid, tid);
      id := qid;
      qid := qid + Total(c);
      if qid > INT_MAX { qid := c.threads * sid + tid; }
    }
  }
}
