/**
 * A server's store (core/gstore.hpp, static mode): the hash table gives each key a pointer to
 * a range of the entry region that holds its list.  Ranges are handed out one after the other.
 */
module GStore {
  import opened HashTable

  const DIR_IN: nat := 0
  const DIR_OUT: nat := 1

  datatype Put = Done | NoEntries | Conflict | NoBuckets

  /** The range of a pointer holds the list. */
  ghost predicate HoldsList(edges: seq<nat>, ptr: Ptr, list: seq<nat>) {
    ptr.size == |list| && ptr.off + ptr.size <= |edges| && edges[ptr.off..ptr.off + ptr.size] == list
  }

  predicate Apart(a: Ptr, b: Ptr) { a.off + a.size <= b.off || b.off + b.size <= a.off }

  /** Every key has its own list, below the last entry handed out. */
  ghost predicate ListsOk(edges: seq<nat>, last: nat, model: map<Key, Ptr>, lists: map<Key, seq<nat>>) {
    && lists.Keys == model.Keys && last <= |edges|
    && (forall k :: k in lists ==> HoldsList(edges, model[k], lists[k]) && model[k].off + model[k].size <= last)
    && forall k, l :: k in lists && l in lists && k != l ==> Apart(model[k], model[l])
  }

  /** Writing above the last entry, and a new key for what was written. */
  lemma ListsAdd(edges: seq<nat>, edges': seq<nat>, last: nat, model: map<Key, Ptr>, lists: map<Key, seq<nat>>, key: Key, list: seq<nat>)
    requires ListsOk(edges, last, model, lists) && key !in lists && last + |list| <= |edges| == |edges'|
    requires edges'[..last] == edges[..last] && edges'[last..last + |list|] == list
    ensures ListsOk(edges', last + |list|, model[key := Ptr(|list|, last, 0)], lists[key := list])
  {
    forall k | k in lists
      ensures HoldsList(edges', model[k], lists[k])
    {
      var p := model[k];
      assert edges'[p.off..p.off + p.size] == edges'[..last][p.off..p.off + p.size];
      assert edges[p.off..p.off + p.size] == edges[..last][p.off..p.off + p.size];
    }
  }

  lemma ListsWiden(edges: seq<nat>, last: nat, last': nat, model: map<Key, Ptr>, lists: map<Key, seq<nat>>)
    requires ListsOk(edges, last, model, lists) && last <= last' <= |edges|
    ensures ListsOk(edges, last', model, lists)
  {
  }

  class Server {
    const table: VertexTable
    const edges: array<nat>
    var lastEntry: nat

    ghost var lists: map<Key, seq<nat>>

    ghost predicate Valid()
      reads this, table, table.vertices, edges
    {
      table.Valid() && ListsOk(edges[..], lastEntry, table.model, lists)
    }

    constructor (buckets: nat, ext: nat, entries: nat, hash: Key -> nat)
      requires buckets > 0
      ensures Valid() && lists == map[] && lastEntry == 0
      ensures table.lastExt == 0 && table.numBucketsExt == ext && table.numBuckets == buckets && table.hash == hash
      ensures fresh(table) && fresh(table.vertices) && fresh(edges) && edges.Length == entries
    {
      table := new VertexTable(buckets, ext, hash);
      edges := new nat[entries](_ => 0);
      lastEntry, lists := 0, map[];
    }

    /** Take the next n entries; the region must not be used up completely. */
    method AllocEdges(n: nat) returns (ok: bool, off: nat)
      requires Valid()
      modifies this`lastEntry
      ensures Valid() && off == old(lastEntry)
      ensures ok <==> old(lastEntry) + n < edges.Length
      ensures lastEntry == if ok then old(lastEntry) + n else old(lastEntry)
    {
      off := lastEntry;
      ok := lastEntry + n < edges.Length;
      if ok {
        ListsWiden(edges[..], lastEntry, lastEntry + n, table.model, lists);
        lastEntry := lastEntry + n;
      }
    }

    /** Store a list under a new key. */
    method PutList(key: Key, list: seq<nat>) returns (r: Put)
      requires Valid() && key != EmptyKey
      modifies this, table, table.vertices, edges
      ensures Valid()
      ensures r == Done ==> key !in old(lists) && lists == old(lists)[key := list]
      ensures r != Done ==> lists == old(lists)
      ensures r == Conflict <==> key in old(lists) && old(lastEntry) + |list| < edges.Length
      ensures r == NoEntries <==> old(lastEntry) + |list| >= edges.Length
      ensures r == NoBuckets <==>
        && old(lastEntry) + |list| < edges.Length && key !in old(lists) && old(table.lastExt) == table.numBucketsExt
        && HomeFull(old(lists.Keys), table.hash, table.numBuckets, table.HomeOf(key))
      ensures r == Done ==> lastEntry == old(lastEntry) + |list|
      ensures r == Done ==>
        table.lastExt == old(table.lastExt) + if HomeFull(old(lists.Keys), table.hash, table.numBuckets, table.HomeOf(key)) then 1 else 0
    {
      hide ListsOk, TableOk, Refines, HomeFull;
      SameKeys(edges[..], lastEntry, table.model, lists);
      ghost var last, model := lastEntry, table.model;
      var ok, off := AllocEdges(|list|);
      if !ok { return NoEntries; }
      ghost var slotted;
      var slot;
      slot, slotted := table.InsertKey(key, true);
      if slot == Duplicate { return Conflict; }
      if slot == OutOfBuckets { return NoBuckets; }
      table.SetPtr(slot.slot, Ptr(|list|, off, 0), table.HomeOf(key), slotted, key);
      assert table.model == model[key := Ptr(|list|, off, 0)];
      ghost var before := edges[..];
      WriteEdges(off, list);
      ListsAdd(before, edges[..], last, model, lists, key, list);
      lists := lists[key := list];
      return Done;
    }

    method WriteEdges(off: nat, list: seq<nat>)
      requires off + |list| <= edges.Length
      modifies edges
      ensures edges[..off] == old(edges[..off]) && edges[off..off + |list|] == list
    {
      for i := 0 to |list|
        invariant edges[..off] == old(edges[..off]) && edges[off..off + i] == list[..i]
      {
        edges[off + i] := list[i];
      }
    }

    /** The list of a key; empty if there is none. */
    method GetEdgesLocal(key: Key) returns (list: seq<nat>)
      requires Valid() && key != EmptyKey
      ensures list == if key in lists then lists[key] else []
    {
      hide TableOk, Refines;
      var v := table.GetVertexLocal(key);
      if v.key == EmptyKey { return []; }
      return edges[v.ptr.off..v.ptr.off + v.ptr.size];
    }
  }

  lemma SameKeys(edges: seq<nat>, last: nat, model: map<Key, Ptr>, lists: map<Key, seq<nat>>)
    requires ListsOk(edges, last, model, lists)
    ensures lists.Keys == model.Keys && last <= |edges|
  {
  }
}
