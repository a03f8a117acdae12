/**
 * Collecting the answers of sub-queries (core/engine.hpp, Reply_Map; core/query.hpp,
 * append_result).
 */
module ReplyMap {
  import opened Query
  import opened Table

  /** A result as it travels: in blind mode only the number of rows. */
  datatype Result = Result(colNum: nat, v2c: seq<int>, blind: bool, rowNum: nat, table: seq<Id>)

  const NoResult := Result(0, [], false, 0, [])

  /** An entry: answers still missing, the waiting query and how far it had got, the answers merged. */
  datatype Item = Item(cnt: int, parent: nat, parentStep: nat, reply: Result, replyStep: nat)

  function AppendResult(whole: Result, part: Result): Result {
    Result(part.colNum, part.v2c, part.blind, whole.rowNum + part.rowNum,
           if part.blind then whole.table else whole.table + part.table)
  }

  /** The result stands for these rows. */
  ghost predicate Represents(r: Result, w: nat, rows: seq<Row>) {
    && Width(w, rows)
    && r.rowNum == |rows|
    && r.table == if r.blind then [] else Flat(rows)
  }

  /** All answers to a query are blind or none is. */
  ghost function AppendAll(whole: Result, parts: seq<Result>): Result {
    if parts == [] then whole else AppendResult(AppendAll(whole, parts[..|parts| - 1]), parts[|parts| - 1])
  }

  ghost function Concat(tables: seq<seq<Row>>): seq<Row> {
    if tables == [] then [] else Concat(tables[..|tables| - 1]) + tables[|tables| - 1]
  }

  /** Merging the answers one by one gives the rows of all of them, or their number. */
  lemma {:induction false} AppendAllRepresents(parts: seq<Result>, tables: seq<seq<Row>>, w: nat, blind: bool)
    requires |parts| == |tables| > 0
    requires forall i :: 0 <= i < |parts| ==> Represents(parts[i], w, tables[i]) && parts[i].blind == blind && parts[i].colNum == w
    ensures Represents(AppendAll(NoResult, parts), w, Concat(tables))
    ensures AppendAll(NoResult, parts).blind == blind && AppendAll(NoResult, parts).colNum == w
  {
    hide Flat, Width;
    var n := |parts| - 1;
    if n == 0 {
      assert AppendAll(NoResult, parts[..0]) == NoResult;
      assert Concat(tables[..0]) == [];
      FlatNone(w);
    } else {
      AppendAllRepresents(parts[..n], tables[..n], w, blind);
    }
    AppendOne(AppendAll(NoResult, parts[..n]), parts[n], w, Concat(tables[..n]), tables[n]);
  }

  lemma FlatNone(w: nat)
    ensures Flat([]) == [] && Width(w, [])
  {
  }

  lemma AppendOne(whole: Result, part: Result, w: nat, a: seq<Row>, b: seq<Row>)
    requires Represents(part, w, b) && Width(w, a) && whole.rowNum == |a|
    requires whole.table == if part.blind then [] else Flat(a)
    ensures Represents(AppendResult(whole, part), w, a + b)
  {
    FlatConcat(a, b);
    assert forall i :: |a| <= i < |a + b| ==> (a + b)[i] == b[i - |a|];
  }

  lemma AppendNone()
    ensures AppendAll(NoResult, []) == NoResult
  {
  }

  lemma AppendNext(parts: seq<Result>, k: nat)
    requires k < |parts|
    ensures AppendAll(NoResult, parts[..k + 1]) == AppendResult(AppendAll(NoResult, parts[..k]), parts[k])
  {
    assert parts[..k + 1][..k] == parts[..k];
  }

  class Replies {
    var items: map<nat, Item>

    constructor ()
      ensures items == map[]
    {
      items := map[];
    }

    method PutParentRequest(id: nat, step: nat, cnt: nat)
      requires id !in items
      modifies this
      ensures items == old(items)[id := Item(cnt, id, step, NoResult, 0)]
    {
      items := items[id := Item(cnt, id, step, NoResult, 0)];
    }

    method PutReply(pid: nat, part: Result, step: nat)
      requires pid in items
      modifies this
      ensures items.Keys == old(items).Keys && forall k :: k in items && k != pid ==> items[k] == old(items)[k]
      ensures items[pid] == old(items)[pid].(cnt := old(items)[pid].cnt - 1, replyStep := step,
                                             reply := AppendResult(old(items)[pid].reply, part))
    {
      var d := items[pid];
      d := d.(cnt := d.cnt - 1);
      d := d.(reply := AppendResult(d.reply, part));
      d := d.(replyStep := step);
      items := items[pid := d];
    }

    predicate IsReady(pid: nat)
      requires pid in items
      reads this
    {
      items[pid].cnt == 0
    }

    method GetMergedReply(pid: nat) returns (r: Result, step: nat)
      requires pid in items
      modifies this
      ensures items == old(items) - {pid} && r == old(items)[pid].reply && step == old(items)[pid].replyStep
    {
      r, step := items[pid].reply, items[pid].replyStep;
      items := items - {pid};
    }

    /** One query's whole stay in the map: after as many answers as it was split into, in any
        order, it is ready, and its merged result is all of them. */
    method Collect(id: nat, step: nat, parts: seq<Result>, ghost tables: seq<seq<Row>>, ghost w: nat, ghost blind: bool)
      returns (r: Result)
      requires id !in items && |parts| == |tables| > 0
      requires forall i :: 0 <= i < |parts| ==> Represents(parts[i], w, tables[i]) && parts[i].blind == blind && parts[i].colNum == w
      modifies this
      ensures items == old(items)
      ensures Represents(r, w, Concat(tables)) && r.blind == blind && r.colNum == w
    {
      hide Represents, Concat, AppendResult, AppendAll;
      PutParentRequest(id, step, |parts|);
      AppendNone();
      assert parts[..0] == [];
      for k := 0 to |parts|
        invariant items.Keys == old(items).Keys + {id}
        invariant forall x :: x in old(items) ==> items[x] == old(items)[x]
        invariant items[id].cnt == |parts| - k && items[id].reply == AppendAll(NoResult, parts[..k])
      {
        assert !IsReady(id);
        AppendNext(parts, k);
        PutReply(id, parts[k], step);
      }
      assert IsReady(id);
      assert parts[..|parts|] == parts;
      AppendAllRepresents(parts, tables, w, blind);
      var last;
      r, last := GetMergedReply(id);
    }
  }
}
