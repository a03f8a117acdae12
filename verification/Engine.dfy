/**
 * The query engine's pattern steps on flat tables (core/engine.hpp, core/query.hpp).
 *
 * A request carries its plan, the step it has reached, the map from variables to columns and
 * the flat result table.  Each step method works as the engine does, with loops over rows,
 * edges and columns, and is proved to leave the table that the exploration of Query.dfy
 * specifies.
 */
module Engine {
  import opened Query
  import opened ForkJoin
  import opened ParallelStart
  import opened Table

  /** No edge starts at the reserved id. */
  ghost predicate BlankIsolated(st: Store) {
    forall p, d :: Stored(p, d) ==> st.adj(BLANK_ID, p, d) == []
  }

  ghost predicate VarsBelow(pats: seq<Pattern>, nvars: nat) {
    forall j :: 0 <= j < |pats| ==> pats[j].subj >= 0 - nvars && pats[j].obj >= 0 - nvars
  }

  /** A sub-query as it is sent to a server. */
  datatype SubQuery = SubQuery(step: nat, v2c: seq<int>, colNum: nat, localVar: int, table: seq<Id>)

  /** How a request starts: its first subject makes it an index start, which then must be one. */
  datatype Start = FromIndex | FromVertex | Asserts

  class Request {
    const patterns: seq<Pattern>
    const nvars: nat
    const tid: nat
    const mtFactor: nat
    var step: nat
    var v2c: seq<int>
    var colNum: nat
    var table: seq<Id>
    var localVar: int

    // the table's columns and rows
    ghost var cols: seq<int>
    ghost var rows: seq<Row>

    ghost predicate Valid()
      reads this
    {
      && step <= |patterns| && VarsBelow(patterns, nvars) && mtFactor > 0
      && V2c(v2c, cols, nvars)
      && colNum == |cols|
      && Shaped(cols, rows)
      && table == Flat(rows)
    }

    /** What is left of the plan can be run on the columns at hand. */
    ghost predicate Ready()
      reads this
      requires Valid()
    {
      Ordered(cols, patterns[step..])
    }

    /** It has not begun, and fails as soon as it is asked how it starts. */
    ghost predicate FailsToStart()
      reads this
      requires Valid()
    {
      cols == [] && patterns != [] && StartFails(patterns[0])
    }

    function StartFromIndex(): (s: Start)
      ensures s.Asserts? <==> patterns != [] && StartFails(patterns[0])
      ensures s.FromIndex? <==> patterns != [] && IsIndexPattern(patterns[0])
    {
      if |patterns| == 0 then FromVertex
      else if IsIndexId(patterns[0].subj) then
        if patterns[0].pred == PREDICATE_ID || patterns[0].pred == TYPE_ID then FromIndex else Asserts
      else FromVertex
    }

    constructor (patterns: seq<Pattern>, nvars: nat, tid: nat, mtFactor: nat)
      requires VarsBelow(patterns, nvars) && mtFactor > 0
      ensures Valid() && step == 0 && cols == [] && rows == [] && this.patterns == patterns && this.nvars == nvars
      ensures this.tid == tid && this.mtFactor == mtFactor
    {
      this.patterns, this.nvars, this.tid, this.mtFactor := patterns, nvars, tid, mtFactor;
      step, colNum, table, localVar := 0, 0, [], 0;
      v2c := seq(nvars, _ => NO_RESULT);
      cols, rows := [], [];
    }

    /** A request made from a sub-query that holds the given rows. */
    constructor Received(sub: SubQuery, patterns: seq<Pattern>, nvars: nat, ghost cols: seq<int>, ghost rows: seq<Row>)
      requires VarsBelow(patterns, nvars) && sub.step <= |patterns|
      requires V2c(sub.v2c, cols, nvars) && sub.colNum == |cols| && Shaped(cols, rows) && sub.table == Flat(rows)
      ensures Valid() && step == sub.step && this.patterns == patterns && this.nvars == nvars
      ensures this.cols == cols && this.rows == rows && this.mtFactor == 1
    {
      this.patterns, this.nvars, this.tid, this.mtFactor := patterns, nvars, 0, 1;
      step, v2c, colNum, table, localVar := sub.step, sub.v2c, sub.colNum, sub.table, sub.localVar;
      this.cols, this.rows := cols, rows;
    }

    function Var2Col(vid: int): (col: int)
      requires Valid() && 0 - nvars <= vid < 0
      reads this
      ensures col == if vid in cols then ColOf(cols, vid) else NO_RESULT
    {
      v2c[-(vid + 1)]
    }

    method AddVar2Col(vid: int, col: nat)
      requires V2c(v2c, cols, nvars) && 0 - nvars <= vid < 0 && vid !in cols && col == |cols|
      modifies this`v2c
      ensures V2c(v2c, cols + [vid], nvars)
    {
      V2cAdd(v2c, cols, nvars, vid);
      v2c := v2c[-(vid + 1) := col];
    }

    /** End a step that binds a new variable. */
    method Widen(vid: int, updated: seq<Id>, ghost rows': seq<Row>)
      requires Valid() && step < |patterns| && 0 - nvars <= vid < 0 && vid !in cols
      requires Shaped(cols + [vid], rows') && updated == Flat(rows')
      modifies this`table, this`v2c, this`colNum, this`step, this`cols, this`rows
      ensures Valid() && step == old(step) + 1 && cols == old(cols) + [vid] && rows == rows'
    {
      table := updated;
      AddVar2Col(vid, colNum);
      colNum := colNum + 1;
      step := step + 1;
      cols, rows := cols + [vid], rows';
    }

    /** End a step that only drops rows. */
    method Narrow(updated: seq<Id>, ghost rows': seq<Row>)
      requires Valid() && step < |patterns| && Shaped(cols, rows') && updated == Flat(rows')
      modifies this`table, this`step, this`rows
      ensures Valid() && step == old(step) + 1 && rows == rows'
    {
      table := updated;
      step := step + 1;
      rows := rows';
    }

    function GetRowNum(): (n: nat)
      requires Valid()
      reads this
      ensures cols != [] ==> n == |rows|
      ensures cols == [] ==> n == 0
    {
      if colNum == 0 then 0 else
        RowCount(colNum, rows);
        |table| / colNum
    }

    function GetRowCol(r: nat, c: nat): (x: Id)
      requires Valid() && r < |rows| && c < |cols|
      reads this
      ensures x == rows[r][c]
    {
      FlatAt(colNum, rows, r, c);
      table[colNum * r + c]
    }

    method AppendRowTo(r: nat, update: seq<Id>) returns (u: seq<Id>)
      requires Valid() && r < |rows|
      ensures u == update + rows[r]
    {
      u := update;
      for c := 0 to colNum
        invariant u == update + rows[r][..c]
      {
        u := u + [GetRowCol(r, c)];
      }
    }
  }

  lemma StepSnoc(st: Store, cols: seq<int>, q: Pattern, rows: seq<Row>, i: nat)
    requires Supported(cols, q) && cols != [] && Shaped(cols, rows) && i < |rows|
    ensures Flat(StepFrom(st, cols, q, rows[..i + 1]))
      == Flat(StepFrom(st, cols, q, rows[..i]))
       + Flat(StepRow(cols, q, rows[i], st.adj(Val(cols, rows[i], q.subj), q.pred, q.dir)))
  {
    hide StepRow, Flat;
    assert rows[..i + 1] == rows[..i] + [rows[i]];
    StepConcat(st, cols, q, rows[..i], [rows[i]]);
    assert StepFrom(st, cols, q, [rows[i]])
        == StepRow(cols, q, rows[i], st.adj(Val(cols, rows[i], q.subj), q.pred, q.dir));
    FlatConcat(StepFrom(st, cols, q, rows[..i]), StepFrom(st, cols, q, [rows[i]]));
  }

  lemma StepNone(st: Store, cols: seq<int>, q: Pattern)
    requires Supported(cols, q) && cols != []
    ensures Flat(StepFrom(st, cols, q, [])) == []
  {
  }

  lemma StepSomeRow(cols: seq<int>, q: Pattern, row: Row, nbrs: seq<Id>)
    requires |row| == |cols| && Bound(cols, q.obj)
    ensures Flat(StepRow(cols, q, row, nbrs)) == if Val(cols, row, q.obj) in nbrs then row else []
  {
    FlatSnoc([], row);
    assert [] + [row] == [row];
  }

  lemma ExtendSnoc(row: Row, xs: seq<Id>, k: nat)
    requires k < |xs|
    ensures Flat(ExtendRow(row, xs[..k + 1])) == Flat(ExtendRow(row, xs[..k])) + row + [xs[k]]
  {
    assert ExtendRow(row, xs[..k + 1]) == ExtendRow(row, xs[..k]) + [row + [xs[k]]];
    FlatSnoc(ExtendRow(row, xs[..k]), row + [xs[k]]);
  }

  class Worker {
    const st: Store
    const sid: nat
    const useRdma: bool
    const threshold: nat

    constructor (st: Store, sid: nat, useRdma: bool, threshold: nat)
      requires sid < st.servers
      ensures this.st == st && this.sid == sid && this.useRdma == useRdma && this.threshold == threshold
    {
      this.st, this.sid, this.useRdma, this.threshold := st, sid, useRdma, threshold;
    }

    /** Append one row per neighbour. */
    method ExpandRow(req: Request, i: nat, edges: seq<Id>, updated: seq<Id>) returns (u: seq<Id>)
      requires req.Valid() && i < |req.rows|
      ensures u == updated + Flat(ExtendRow(req.rows[i], edges))
    {
      u := updated;
      for k := 0 to |edges|
        invariant u == updated + Flat(ExtendRow(req.rows[i], edges[..k]))
      {
        ExtendSnoc(req.rows[i], edges, k);
        u := req.AppendRowTo(i, u);
        u := u + [edges[k]];
      }
      assert edges[..|edges|] == edges;
    }

    /** Expand every row by the neighbours of its start vertex. */
    method KnownToUnknown(req: Request)
      requires req.Valid() && req.step < |req.patterns| && req.cols != [] && BlankIsolated(st)
      requires Supported(req.cols, req.patterns[req.step]) && !Bound(req.cols, req.patterns[req.step].obj)
      modifies req
      ensures req.Valid() && req.step == old(req.step) + 1
      ensures req.cols == ColsAfter(old(req.cols), req.patterns[old(req.step)])
      ensures req.rows == StepFrom(st, old(req.cols), req.patterns[old(req.step)], old(req.rows))
    {
      hide Flat, StepFrom, Distinct;
      var q := req.patterns[req.step];
      ghost var cols, rows := req.cols, req.rows;
      StepNone(st, cols, q);
      var updated: seq<Id> := [];
      var cached, edges := BLANK_ID, [];
      for i := 0 to req.GetRowNum()
        modifies {}
        invariant edges == st.adj(cached, q.pred, q.dir)
        invariant updated == Flat(StepFrom(st, cols, q, rows[..i]))
      {
        var cur := req.GetRowCol(i, req.Var2Col(q.subj));
        if cur != cached {
          cached := cur;
          edges := st.adj(cur, q.pred, q.dir);
        }
        updated := ExpandRow(req, i, edges, updated);
        StepSnoc(st, cols, q, rows, i);
      }
      assert rows[..|rows|] == rows;
      StepShaped(st, cols, q, rows);
      req.Widen(q.obj, updated, StepFrom(st, cols, q, rows));
    }

    method Member(edges: seq<Id>, x: Id) returns (found: bool)
      ensures found <==> x in edges
    {
      for k := 0 to |edges|
        invariant x !in edges[..k]
      {
        if edges[k] == x { return true; }
      }
      return false;
    }

    /** Keep the rows whose object is among the neighbours of their start vertex. */
    method KnownToKnown(req: Request)
      requires req.Valid() && req.step < |req.patterns| && req.cols != [] && BlankIsolated(st)
      requires Supported(req.cols, req.patterns[req.step])
      requires req.patterns[req.step].obj < 0 && Bound(req.cols, req.patterns[req.step].obj)
      modifies req
      ensures req.Valid() && req.step == old(req.step) + 1 && req.cols == old(req.cols)
      ensures req.rows == StepFrom(st, old(req.cols), req.patterns[old(req.step)], old(req.rows))
    {
      hide Flat, StepFrom, Distinct;
      var q := req.patterns[req.step];
      ghost var cols, rows := req.cols, req.rows;
      StepNone(st, cols, q);
      var updated: seq<Id> := [];
      var cached, edges := BLANK_ID, [];
      for i := 0 to req.GetRowNum()
        modifies {}
        invariant edges == st.adj(cached, q.pred, q.dir)
        invariant updated == Flat(StepFrom(st, cols, q, rows[..i]))
      {
        var cur := req.GetRowCol(i, req.Var2Col(q.subj));
        if cur != cached {
          cached := cur;
          edges := st.adj(cur, q.pred, q.dir);
        }
        var known := req.GetRowCol(i, req.Var2Col(q.obj));
        var found := Member(edges, known);
        if found { updated := req.AppendRowTo(i, updated); }
        StepSnoc(st, cols, q, rows, i);
        StepSomeRow(cols, q, rows[i], edges);
      }
      assert rows[..|rows|] == rows;
      StepShaped(st, cols, q, rows);
      req.Narrow(updated, StepFrom(st, cols, q, rows));
    }

    /** Keep the rows whose start vertex has the constant among its neighbours. */
    method KnownToConst(req: Request)
      requires req.Valid() && req.step < |req.patterns| && req.cols != [] && BlankIsolated(st)
      requires Supported(req.cols, req.patterns[req.step]) && req.patterns[req.step].obj >= 0
      modifies req
      ensures req.Valid() && req.step == old(req.step) + 1 && req.cols == old(req.cols)
      ensures req.rows == StepFrom(st, old(req.cols), req.patterns[old(req.step)], old(req.rows))
    {
      hide Flat, StepFrom, Distinct;
      var q := req.patterns[req.step];
      ghost var cols, rows := req.cols, req.rows;
      StepNone(st, cols, q);
      var updated: seq<Id> := [];
      var cached, exist := BLANK_ID, false;
      for i := 0 to req.GetRowNum()
        modifies {}
        invariant exist <==> q.obj in st.adj(cached, q.pred, q.dir)
        invariant updated == Flat(StepFrom(st, cols, q, rows[..i]))
      {
        var cur := req.GetRowCol(i, req.Var2Col(q.subj));
        if cur != cached {
          cached := cur;
          var edges := st.adj(cur, q.pred, q.dir);
          exist := Member(edges, q.obj);
          if exist { updated := req.AppendRowTo(i, updated); }
        } else if exist {
          updated := req.AppendRowTo(i, updated);
        }
        StepSnoc(st, cols, q, rows, i);
        StepSomeRow(cols, q, rows[i], st.adj(cur, q.pred, q.dir));
      }
      assert rows[..|rows|] == rows;
      StepShaped(st, cols, q, rows);
      req.Narrow(updated, StepFrom(st, cols, q, rows));
    }

    /** Start from this thread's part of the server's index list. */
    method IndexToUnknown(req: Request)
      requires req.Valid() && req.step < |req.patterns| && req.cols == []
      requires req.patterns[req.step].obj < 0
      modifies req
      ensures req.Valid() && req.step == old(req.step) + 1 && req.cols == [req.patterns[old(req.step)].obj]
      ensures req.rows == StartRows(StartList(st, sid, req.patterns[old(req.step)], req.tid, req.mtFactor, true))
    {
      var q := req.patterns[req.step];
      var edges := st.index(sid, q.subj, q.pred, q.dir);
      var start := req.tid % req.mtFactor;
      var length := |edges| / req.mtFactor;
      SliceBounds(|edges|, req.mtFactor, start);
      var updated: seq<Id> := [];
      for k := start * length to (start + 1) * length
        invariant updated == edges[start * length..k]
      {
        updated := updated + [edges[k]];
      }
      ghost var first := updated;
      if start == req.mtFactor - 1 {
        for k := (start + 1) * length to |edges|
          invariant updated == first + edges[(start + 1) * length..k]
        {
          updated := updated + [edges[k]];
        }
      }
      StartFlat(updated);
      req.Widen(q.obj, updated, StartRows(updated));
    }

    /** Start from the neighbours of a constant. */
    method ConstToUnknown(req: Request)
      requires req.Valid() && req.step < |req.patterns| && req.cols == []
      requires req.patterns[req.step].obj < 0 && req.patterns[req.step].subj >= 0
      modifies req
      ensures req.Valid() && req.step == old(req.step) + 1 && req.cols == [req.patterns[old(req.step)].obj]
      ensures req.rows == StartRows(StartList(st, sid, req.patterns[old(req.step)], req.tid, req.mtFactor, false))
    {
      var q := req.patterns[req.step];
      var edges := st.adj(q.subj, q.pred, q.dir);
      var updated: seq<Id> := [];
      for k := 0 to |edges|
        invariant updated == edges[..k]
      {
        updated := updated + [edges[k]];
      }
      assert updated == edges;
      StartFlat(updated);
      req.Widen(q.obj, updated, StartRows(updated));
    }

    /** One pattern.  Unless the start fails none of the unsupported cases comes up. */
    method ExecuteOnePattern(req: Request) returns (ok: bool)
      requires req.Valid() && req.Ready() && req.step < |req.patterns| && BlankIsolated(st)
      requires req.cols == [] ==> req.step == 0
      modifies req
      ensures ok <==> !old(req.FailsToStart())
      ensures !ok ==> unchanged(req)
      ensures ok ==> req.Valid() && req.Ready() && req.step == old(req.step) + 1 && req.cols != []
      ensures ok ==> req.cols == ColsAfter(old(req.cols), req.patterns[old(req.step)])
      ensures old(req.cols) != [] ==> Supported(old(req.cols), req.patterns[old(req.step)]) && Shaped(old(req.cols), old(req.rows))
      ensures old(req.cols) != [] ==> req.rows == StepFrom(st, old(req.cols), req.patterns[old(req.step)], old(req.rows))
      ensures old(req.cols) == [] ==> req.patterns[0].subj >= 0
      ensures ok && old(req.cols) == [] ==> req.rows == FirstRows(st, sid, req.patterns[0], req.tid, req.mtFactor)
      ensures ok ==> Remaining(st, sid, req) == old(Remaining(st, sid, req))
      ensures ok ==> FinalCols(req.cols, req.patterns[req.step..]) == old(FinalCols(req.cols, req.patterns[req.step..]))
    {
      hide Flat, StepFrom, Distinct, V2c, StartList;
      var q := req.patterns[req.step];
      assert req.patterns[req.step..][0] == q;
      assert req.patterns[req.step..][1..] == req.patterns[req.step + 1..];
      if req.cols == [] { FirstPattern(req.patterns[req.step..]); }
      ExecutableIff(req.cols, req.patterns[req.step..]);
      if req.step == 0 && req.StartFromIndex().Asserts? { return false; }
      ok := true;
      if req.step == 0 && req.StartFromIndex().FromIndex? {
        IndexToUnknown(req);
      } else if q.subj >= 0 {
        if q.obj >= 0 { assert false; }
        else if req.Var2Col(q.obj) != NO_RESULT { assert false; }
        else { ConstToUnknown(req); }
      } else if req.Var2Col(q.subj) != NO_RESULT {
        if q.obj >= 0 { KnownToConst(req); }
        else if req.Var2Col(q.obj) != NO_RESULT { KnownToKnown(req); }
        else { KnownToUnknown(req); }
      } else {
        assert false;
      }
    }

    /** Group the rows by the servers that own their start vertices. */
    method GenerateSubQuery(req: Request) returns (subs: seq<SubQuery>)
      requires req.Valid() && req.step < |req.patterns| && req.cols != [] && st.servers > 0
      requires Supported(req.cols, req.patterns[req.step])
      ensures AreShares(subs, req, st.servers)
    {
      hide Flat, V2c, Val, Distinct, Owner;
      var start := req.patterns[req.step].subj;
      var empty := SubQuery(req.step, req.v2c, req.colNum, start, []);
      subs := seq(st.servers, _ => empty);
      SharesNone(req.cols, start, st.servers);
      for i := 0 to req.GetRowNum()
        invariant |subs| == st.servers
        invariant forall j :: 0 <= j < st.servers ==> subs[j] == SubQuery(req.step, req.v2c, req.colNum, start,
          Flat(Share(req.cols, start, st.servers, j, req.rows[..i])))
      {
        var v := req.GetRowCol(i, req.Var2Col(start));
        assert v == Val(req.cols, req.rows[i], start) by { ValIsCell(req.cols, req.rows[i], start); }
        var dst := Owner(v, st.servers);
        forall j | 0 <= j < st.servers
          ensures Flat(Share(req.cols, start, st.servers, j, req.rows[..i + 1]))
            == Flat(Share(req.cols, start, st.servers, j, req.rows[..i])) + if j == dst then req.rows[i] else []
        {
          ShareSnoc(req.cols, start, st.servers, j, req.rows, i);
        }
        var t := req.AppendRowTo(i, subs[dst].table);
        subs := subs[dst := subs[dst].(table := t)];
      }
      assert req.rows[..|req.rows|] == req.rows;
    }

    /** With so many rows the rest is split over the servers. */
    predicate Splits(rows: nat) { st.servers != 1 && (!useRdma || rows >= threshold) }

    /** After the patterns up to j the rows were not enough to split. */
    ghost predicate WentOn(pats: seq<Pattern>, tid: nat, mt: nat, start: nat, cols0: seq<int>, rows0: seq<Row>, j: nat) {
      exists cols, rows :: RanTo(st, sid, pats, tid, mt, start, cols0, rows0, j, cols, rows) && !Splits(|rows|)
    }

    method NeedForkJoin(req: Request) returns (fork: bool)
      requires req.Valid()
      ensures fork <==> Splits(req.GetRowNum())
    {
      if st.servers == 1 { return false; }
      if !useRdma { return true; }
      return req.GetRowNum() >= threshold;
    }

    /** One more pattern of those run since the start. */
    method NextPattern(req: Request, ghost start: nat, ghost cols0: seq<int>, ghost rows0: seq<Row>) returns (ok: bool)
      requires req.Valid() && req.Ready() && start <= req.step < |req.patterns| && BlankIsolated(st)
      requires (req.cols == [] ==> req.step == 0 && cols0 == []) && (cols0 == [] ==> start == 0)
      requires RanFrom(st, sid, req, start, cols0, rows0)
      modifies req
      ensures ok <==> !old(req.FailsToStart())
      ensures !ok ==> unchanged(req)
      ensures ok ==> req.Valid() && req.Ready() && req.step == old(req.step) + 1
      ensures ok ==> req.cols == ColsAfter(old(req.cols), req.patterns[old(req.step)]) && req.cols != []
      ensures ok ==> RanFrom(st, sid, req, start, cols0, rows0)
      ensures ok ==> Remaining(st, sid, req) == old(Remaining(st, sid, req))
      ensures ok ==> FinalCols(req.cols, req.patterns[req.step..]) == old(FinalCols(req.cols, req.patterns[req.step..]))
    {
      hide V2c, Flat, Explore, StepFrom, FirstRows, Ran, Remaining;
      ghost var before, cols, rows := req.step, req.cols, req.rows;
      ok := ExecuteOnePattern(req);
      if !ok { return; }
      if cols == [] {
        assert req.patterns[1..req.step] == [] && ColsAfter([], req.patterns[0]) == [req.patterns[0].obj];
        RanNone(st, req.cols, req.rows);
      } else if cols0 == [] {
        RanNext(st, [req.patterns[0].obj], FirstRows(st, sid, req.patterns[0], req.tid, req.mtFactor), req.patterns, 1, before, cols, rows);
      } else {
        RanNext(st, cols0, rows0, req.patterns, start, before, cols, rows);
      }
    }
  }

  /** The patterns, run from the first columns and rows, lead to the others. */
  ghost predicate Ran(st: Store, cols0: seq<int>, rows0: seq<Row>, pats: seq<Pattern>, cols: seq<int>, rows: seq<Row>) {
    && cols0 != [] && Executable(cols0, pats) && Shaped(cols0, rows0)
    && cols == FinalCols(cols0, pats) && rows == Explore(st, cols0, pats, rows0)
  }

  /** The patterns from `start` up to j, run from the given columns and rows, or from scratch. */
  ghost predicate RanTo(st: Store, sid: nat, pats: seq<Pattern>, tid: nat, mt: nat, start: nat, cols0: seq<int>, rows0: seq<Row>,
                        j: nat, cols: seq<int>, rows: seq<Row>) {
    && start <= j <= |pats|
    && if cols0 != [] then Ran(st, cols0, rows0, pats[start..j], cols, rows)
       else 0 < j && mt > 0 && pats[0].subj >= 0 && Ran(st, [pats[0].obj], FirstRows(st, sid, pats[0], tid, mt), pats[1..j], cols, rows)
  }

  /** The patterns from `start` on have been run, from the columns and rows of that time. */
  ghost predicate RanFrom(st: Store, sid: nat, req: Request, start: nat, cols0: seq<int>, rows0: seq<Row>)
    requires req.Valid() && start <= req.step
    reads req
  {
    if cols0 != [] then Ran(st, cols0, rows0, req.patterns[start..req.step], req.cols, req.rows)
    else req.cols != [] ==> req.step > 0 && req.patterns[0].subj >= 0 && Ran(st, [req.patterns[0].obj],
      FirstRows(st, sid, req.patterns[0], req.tid, req.mtFactor), req.patterns[1..req.step], req.cols, req.rows)
  }

  lemma RanStart(st: Store, sid: nat, req: Request)
    requires req.Valid()
    ensures RanFrom(st, sid, req, req.step, req.cols, req.rows)
  {
    hide Explore, V2c, Flat;
    assert req.patterns[req.step..req.step] == [];
    if req.cols != [] { RanNone(st, req.cols, req.rows); }
  }

  lemma RanMeans(st: Store, sid: nat, req: Request, start: nat, cols0: seq<int>, rows0: seq<Row>)
    requires req.Valid() && start <= req.step && req.cols != [] && RanFrom(st, sid, req, start, cols0, rows0)
    ensures cols0 != [] ==> Ran(st, cols0, rows0, req.patterns[start..req.step], req.cols, req.rows)
    ensures cols0 == [] ==> req.step > 0 && req.patterns[0].subj >= 0 && Ran(st, [req.patterns[0].obj],
      FirstRows(st, sid, req.patterns[0], req.tid, req.mtFactor), req.patterns[1..req.step], req.cols, req.rows)
  {
  }

  lemma RanNone(st: Store, cols: seq<int>, rows: seq<Row>)
    requires cols != [] && Shaped(cols, rows)
    ensures Ran(st, cols, rows, [], cols, rows)
  {
  }

  lemma RanNext(st: Store, cols0: seq<int>, rows0: seq<Row>, pats: seq<Pattern>, a: nat, b: nat, cols: seq<int>, rows: seq<Row>)
    requires a <= b < |pats| && cols != [] && Ran(st, cols0, rows0, pats[a..b], cols, rows) && Supported(cols, pats[b]) && Shaped(cols, rows)
    ensures Ran(st, cols0, rows0, pats[a..b + 1], ColsAfter(cols, pats[b]), StepFrom(st, cols, pats[b], rows))
  {
    hide Supported, StepFrom;
    assert pats[a..b + 1] == pats[a..b] + [pats[b]];
    ExecutableSnoc(cols0, pats[a..b], pats[b]);
    FinalColsSnoc(cols0, pats[a..b], pats[b]);
    ExploreSnoc(st, cols0, pats[a..b], pats[b], rows0);
  }

  lemma RanMore(st: Store, cols0: seq<int>, rows0: seq<Row>, pats: seq<Pattern>, a: nat, b: nat, c: nat,
                cols1: seq<int>, rows1: seq<Row>, cols2: seq<int>, rows2: seq<Row>)
    requires a <= b <= c <= |pats| && Ran(st, cols0, rows0, pats[a..b], cols1, rows1) && Ran(st, cols1, rows1, pats[b..c], cols2, rows2)
    ensures Ran(st, cols0, rows0, pats[a..c], cols2, rows2)
  {
    hide Explore, Executable, FinalCols;
    assert pats[a..c] == pats[a..b] + pats[b..c];
    ExecutableParts(cols0, pats[a..b], pats[b..c]);
    ExploreParts(st, cols0, pats[a..b], pats[b..c], rows0);
  }

  lemma ExploreDone(st: Store, cols: seq<int>, rows: seq<Row>)
    requires cols != [] && Shaped(cols, rows)
    ensures Executable(cols, []) && Explore(st, cols, [], rows) == rows
  {
  }

  lemma SharesNone(cols: seq<int>, x: int, n: nat)
    requires n > 0 && Bound(cols, x)
    ensures forall i: nat :: Flat(Share(cols, x, n, i, [])) == []
  {
  }

  lemma ValIsCell(cols: seq<int>, row: Row, x: int)
    requires x < 0 && x in cols && |row| == |cols|
    ensures Val(cols, row, x) == row[ColOf(cols, x)]
  {
  }

  /** What became of a request: it ran to its end, or it was split; or its start failed an
      assertion, or a co-run came to a join that is not defined. */
  datatype Outcome = Finished(rowNum: nat) | Forked(subs: seq<SubQuery>) | Asserted | Undefined

  /** The sub-queries are the request's rows, split by the owners of their start vertices. */
  ghost predicate AreShares(subs: seq<SubQuery>, req: Request, n: nat)
    requires req.Valid() && req.step < |req.patterns| && Supported(req.cols, req.patterns[req.step])
    requires n > 0 && req.cols != []
    reads req
  {
    && |subs| == n
    && forall i :: 0 <= i < n ==> subs[i] == SubQuery(req.step, req.v2c, req.colNum, req.patterns[req.step].subj,
           Flat(Share(req.cols, req.patterns[req.step].subj, n, i, req.rows)))
  }

  /** The rows of the shares, one more row at a time. */
  lemma ShareSnoc(cols: seq<int>, x: int, n: nat, i: nat, rows: seq<Row>, k: nat)
    requires n > 0 && Bound(cols, x) && Shaped(cols, rows) && k < |rows|
    ensures Flat(Share(cols, x, n, i, rows[..k + 1]))
      == Flat(Share(cols, x, n, i, rows[..k])) + if Owner(Val(cols, rows[k], x), n) == i then rows[k] else []
  {
    hide Owner, Val, Flat;
    assert rows[..k + 1] == rows[..k] + [rows[k]];
    ShareConcat(cols, x, n, i, rows[..k], [rows[k]]);
    assert Share(cols, x, n, i, [rows[k]]) == if Owner(Val(cols, rows[k], x), n) == i then [rows[k]] else [];
    FlatSnoc(Share(cols, x, n, i, rows[..k]), rows[k]);
    assert Share(cols, x, n, i, rows[..k]) + [] == Share(cols, x, n, i, rows[..k]);
  }

  lemma {:induction false} ShareConcat(cols: seq<int>, x: int, n: nat, i: nat, a: seq<Row>, b: seq<Row>)
    requires n > 0 && Bound(cols, x) && Shaped(cols, a) && Shaped(cols, b)
    ensures Share(cols, x, n, i, a + b) == Share(cols, x, n, i, a) + Share(cols, x, n, i, b)
    decreases |a|
  {
    hide Owner, Val;
    if a == [] {
      assert a + b == b;
    } else {
      assert (a + b)[1..] == a[1..] + b;
      ShareConcat(cols, x, n, i, a[1..], b);
    }
  }

  /** The vertices a first pattern starts from. */
  function StartList(st: Store, sid: nat, q: Pattern, tid: nat, mt: nat, fromIndex: bool): seq<Id>
    requires mt > 0 && (!fromIndex ==> q.subj >= 0)
  {
    if fromIndex then Slice(st.index(sid, q.subj, q.pred, q.dir), mt, tid % mt)
    else st.adj(q.subj, q.pred, q.dir)
  }

  function FirstRows(st: Store, sid: nat, q: Pattern, tid: nat, mt: nat): seq<Row>
    requires mt > 0 && q.subj >= 0
  {
    StartRows(StartList(st, sid, q, tid, mt, IsIndexPattern(q)))
  }

  lemma {:induction false} StartFlat(xs: seq<Id>)
    ensures Flat(StartRows(xs)) == xs
    decreases |xs|
  {
    if xs != [] {
      var n := |xs| - 1;
      StartFlat(xs[..n]);
      var a, b := StartRows(xs), StartRows(xs[..n]) + [[xs[n]]];
      forall i | 0 <= i <= n
        ensures a[i] == b[i]
      {
        assert a[i] == [xs[i]];
        if i < n { assert b[i] == StartRows(xs[..n])[i] == [xs[..n][i]]; }
      }
      assert a == b;
      FlatSnoc(StartRows(xs[..n]), [xs[n]]);
    }
  }

  /** The table that running the rest of a request on one node leads to. */
  ghost function Remaining(st: Store, sid: nat, req: Request): seq<Row>
    requires req.Valid() && req.Ready() && (req.cols == [] ==> req.step < |req.patterns|)
    reads req
  {
    var rest := req.patterns[req.step..];
    ExecutableIff(req.cols, rest);
    if req.cols != [] then Explore(st, req.cols, rest, req.rows)
    else
      FirstPattern(rest);
      Explore(st, [rest[0].obj], rest[1..],
              StartRows(StartList(st, sid, rest[0], req.tid, req.mtFactor, IsIndexPattern(rest[0]))))
  }
}
