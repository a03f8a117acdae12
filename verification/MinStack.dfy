/**
 * A stack that knows its smallest element (core/planner.hpp, Minimum_maintenance): one array
 * holds the elements that were the smallest when pushed, a second the others, a third says for
 * each element which of the two took it.
 */
module MinStack {
  import opened Query
  import opened Seqs

  /** Why a variable is selective: the predicate and direction of a constraint on it, and the
      estimated number of vertices that meet it. */
  datatype SelectRecord = SelectRecord(p: int, d: Dir, v: real)

  type Rec = SelectRecord

  const NONE := SelectRecord(0, IN, 0.0)

  /** The elements that were smaller than everything below them. */
  function Minima(c: seq<Rec>): (m: seq<Rec>)
    ensures c == [] <==> m == []
    ensures |m| <= |c|
  {
    if c == [] then []
    else
      var m := Minima(Front(c));
      if m == [] || Last(m).v > Last(c).v then m + [Last(c)] else m
  }

  function Others(c: seq<Rec>): (o: seq<Rec>)
    ensures |o| + |Minima(c)| == |c|
  {
    if c == [] then []
    else
      var m, o := Minima(Front(c)), Others(Front(c));
      if m == [] || Last(m).v > Last(c).v then o else o + [Last(c)]
  }

  function Sides(c: seq<Rec>): (s: seq<int>)
    ensures |s| == |c|
  {
    if c == [] then []
    else
      var m := Minima(Front(c));
      Sides(Front(c)) + [if m == [] || Last(m).v > Last(c).v then 0 else 1]
  }

  /** The last of the minima is the smallest element, the lowest one if there are several. */
  lemma {:induction false} LastMinimum(c: seq<Rec>)
    requires c != []
    ensures Last(Minima(c)) in c
    ensures forall i :: 0 <= i < |c| ==> Last(Minima(c)).v <= c[i].v
  {
    if |c| > 1 {
      LastMinimum(Front(c));
      assert forall i :: 0 <= i < |c| - 1 ==> c[i] == Front(c)[i];
    } else {
      assert Minima(Front(c)) == [];
    }
  }

  class MinimumMaintenance {
    const minima: array<Rec>
    const others: array<Rec>
    const order: array<int>
    var nMinima: nat
    var nOthers: nat

    ghost var contents: seq<Rec>

    ghost predicate Valid()
      reads this, minima, others, order
    {
      && minima != others && minima.Length == others.Length == order.Length
      && nMinima == |Minima(contents)| && nOthers == |Others(contents)| && |contents| <= order.Length
      && minima[..nMinima] == Minima(contents)
      && others[..nOthers] == Others(contents)
      && order[..nMinima + nOthers] == Sides(contents)
    }

    constructor (s: int)
      ensures Valid() && contents == [] && order.Length == (if s < 1 then 1 else s)
      ensures fresh(minima) && fresh(others) && fresh(order)
    {
      var size := if s < 1 then 1 else s;
      nMinima, nOthers := 0, 0;
      minima := new Rec[size](_ => NONE);
      others := new Rec[size](_ => NONE);
      order := new int[size];
      contents := [];
    }

    method Push(x: Rec)
      requires Valid() && |contents| < order.Length
      modifies this, minima, others, order
      ensures Valid() && contents == old(contents) + [x]
    {
      ghost var c := contents;
      assert Front(c + [x]) == c;
      var n := nMinima + nOthers;
      assert nMinima > 0 ==> minima[nMinima - 1] == Last(Minima(c));
      if nMinima == 0 || minima[nMinima - 1].v > x.v {
        minima[nMinima] := x;
        order[n] := 0;
        nMinima := nMinima + 1;
      } else {
        others[nOthers] := x;
        order[n] := 1;
        nOthers := nOthers + 1;
      }
      contents := contents + [x];
    }

    method Pop()
      requires Valid()
      modifies this
      ensures Valid() && contents == if old(contents) == [] then [] else Front(old(contents))
    {
      if nMinima + nOthers != 0 {
        assert order[nMinima + nOthers - 1] == Last(Sides(contents));
        ghost var c := contents;
        if order[nMinima + nOthers - 1] == 0 { nMinima := nMinima - 1; } else { nOthers := nOthers - 1; }
        contents := Front(contents);
        assert minima[..nMinima] == Minima(contents);
        assert others[..nOthers] == Others(contents);
        assert order[..nMinima + nOthers] == Front(Sides(c)) == Sides(contents);
      }
    }

    /** The smallest element, if there is one. */
    method Top() returns (ok: bool, x: Rec)
      requires Valid()
      ensures ok <==> contents != []
      ensures ok ==> x in contents && forall i :: 0 <= i < |contents| ==> x.v <= contents[i].v
    {
      x := NONE;
      if nMinima + nOthers == 0 { return false, x; }
      x := minima[nMinima - 1];
      assert x == minima[..nMinima][nMinima - 1];
      LastMinimum(contents);
      return true, x;
    }

    predicate Empty()
      requires Valid()
      reads this, minima, others, order
      ensures Empty() <==> contents == []
    {
      nMinima == 0
    }
  }
}
