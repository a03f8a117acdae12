/**
 * Merging the parts of a UNION (core/query.hpp, insert_blank_col and merge_union).
 *
 * The parts may bind different variables.  The merged table has a column for every variable of
 * any part; a cell that holds BLANK_ID leaves its variable unbound.  Read that way, merging is
 * the union of multisets of solution mappings (section 18.5 of SPARQL 1.1 Query Language).
 */
module UnionMerge {
  import opened Query
  import opened Table

  // ---- what a table means ----

  type Mapping = map<int, Id>

  /** The variables a row binds, and their values. */
  ghost function MappingOf(cols: seq<int>, row: Row): Mapping
    requires |row| == |cols|
  {
    map v | v in cols && row[ColOf(cols, v)] != BLANK_ID :: row[ColOf(cols, v)]
  }

  ghost function Mappings(cols: seq<int>, rows: seq<Row>): multiset<Mapping>
    requires Shaped(cols, rows)
  {
    if rows == [] then multiset{}
    else Mappings(cols, rows[..|rows| - 1]) + multiset{MappingOf(cols, rows[|rows| - 1])}
  }

  lemma {:induction false} MappingsConcat(cols: seq<int>, a: seq<Row>, b: seq<Row>)
    requires Shaped(cols, a) && Shaped(cols, b)
    ensures Shaped(cols, a + b) && Mappings(cols, a + b) == Mappings(cols, a) + Mappings(cols, b)
    decreases |b|
  {
    hide MappingOf, Mappings;
    ShapedConcat(cols, a, b);
    if b == [] {
      assert a + b == a;
      NoMappings(cols);
    } else {
      var n := |b| - 1;
      MappingsConcat(cols, a, b[..n]);
      MappingsSnoc(cols, a + b[..n], b[n]);
      MappingsSnoc(cols, b[..n], b[n]);
      assert a + b == (a + b[..n]) + [b[n]] && b == b[..n] + [b[n]];
    }
  }

  lemma NoMappings(cols: seq<int>)
    ensures Mappings(cols, []) == multiset{}
  {
  }

  lemma ShapedConcat(cols: seq<int>, a: seq<Row>, b: seq<Row>)
    requires Shaped(cols, a) && Shaped(cols, b)
    ensures Shaped(cols, a + b)
  {
    assert forall i :: |a| <= i < |a + b| ==> (a + b)[i] == b[i - |a|];
  }

  lemma MappingsSnoc(cols: seq<int>, a: seq<Row>, r: Row)
    requires Shaped(cols, a) && |r| == |cols|
    ensures Shaped(cols, a + [r]) && Mappings(cols, a + [r]) == Mappings(cols, a) + multiset{MappingOf(cols, r)}
  {
    hide MappingOf;
    assert (a + [r])[..|a|] == a;
  }

  /** Two tables whose rows mean the same, row by row. */
  lemma {:induction false} SameMappings(cols: seq<int>, a: seq<Row>, cols': seq<int>, b: seq<Row>)
    requires Shaped(cols, a) && Shaped(cols', b) && |a| == |b|
    requires forall i :: 0 <= i < |a| ==> MappingOf(cols, a[i]) == MappingOf(cols', b[i])
    ensures Mappings(cols, a) == Mappings(cols', b)
    decreases |a|
  {
    hide MappingOf;
    if a != [] { SameMappings(cols, a[..|a| - 1], cols', b[..|b| - 1]); }
  }

  // ---- columns and rows of the merge ----

  /** The columns once the variables with index below i have been looked at. */
  function MergeCols(cols: seq<int>, pcols: seq<int>, i: nat): seq<int> {
    if i == 0 then cols
    else
      var before := MergeCols(cols, pcols, i - 1);
      if 0 - i !in cols && 0 - i in pcols then before + [0 - i] else before
  }

  lemma NoCol(cols: seq<int>, pcols: seq<int>)
    ensures MergeCols(cols, pcols, 0) == cols
  {
  }

  /** One more variable: a column is added exactly if only the part has it. */
  lemma NextCol(cols: seq<int>, pcols: seq<int>, i: nat)
    ensures var c := MergeCols(cols, pcols, i);
      && cols <= c
      && MergeCols(cols, pcols, i + 1) == if -1 - i !in c && -1 - i in pcols then c + [-1 - i] else c
  {
    MergeColsFacts(cols, pcols, i);
  }

  lemma {:induction false} MergeColsFacts(cols: seq<int>, pcols: seq<int>, i: nat)
    ensures cols <= MergeCols(cols, pcols, i)
    ensures forall v :: v in MergeCols(cols, pcols, i) <==> v in cols || (v in pcols && 0 - i <= v < 0)
    ensures Distinct(cols) ==> Distinct(MergeCols(cols, pcols, i))
  {
    if i > 0 { MergeColsFacts(cols, pcols, i - 1); }
  }

  function Blanks(k: nat): seq<Id> { seq(k, _ => BLANK_ID) }

  function PadRow(row: Row, w: nat): Row
    requires |row| <= w
  {
    row + Blanks(w - |row|)
  }

  /** A part's row, laid out in the merged columns. */
  function Convert(cols: seq<int>, pcols: seq<int>, row: Row): (r: Row)
    requires |row| == |pcols|
    ensures |r| == |cols|
  {
    seq(|cols|, j requires 0 <= j < |cols| => if cols[j] in pcols then row[ColOf(pcols, cols[j])] else BLANK_ID)
  }

  /** More columns, all blank, bind nothing more. */
  lemma PadMeans(cols: seq<int>, cols': seq<int>, row: Row)
    requires cols <= cols' && |row| == |cols|
    ensures MappingOf(cols', PadRow(row, |cols'|)) == MappingOf(cols, row)
  {
    var row' := PadRow(row, |cols'|);
    forall v | v in cols'
      ensures v in cols ==> row'[ColOf(cols', v)] == row[ColOf(cols, v)]
      ensures v !in cols ==> row'[ColOf(cols', v)] == BLANK_ID
    {
      if v in cols { ColOfSame(cols, cols', v); } else { NotInPrefix(cols, cols', v); }
    }
    assert forall v :: v in cols ==> v in cols';
  }

  lemma ConvertMeans(cols: seq<int>, pcols: seq<int>, row: Row)
    requires |row| == |pcols| && forall v :: v in pcols ==> v in cols
    ensures MappingOf(cols, Convert(cols, pcols, row)) == MappingOf(pcols, row)
  {
  }

  // ---- the merge itself ----

  /** The result of one part. */
  datatype Part = Part(nvars: nat, v2c: seq<int>, colNum: nat, rowNum: nat, table: seq<Id>)

  ghost predicate PartOk(p: Part, pcols: seq<int>, prows: seq<Row>) {
    && V2c(p.v2c, pcols, p.nvars) && p.colNum == |pcols| && p.rowNum == |prows|
    && Shaped(pcols, prows) && p.table == Flat(prows)
    && (pcols == [] ==> prows == [])
  }

  /** Every row gets one more cell, blank, at the given place. */
  function InsertBlank(row: Row, col: nat): Row
    requires col <= |row|
  {
    row[..col] + [BLANK_ID] + row[col..]
  }

  function InsertBlanks(rows: seq<Row>, w: nat, col: nat): (r: seq<Row>)
    requires col <= w && forall i :: 0 <= i < |rows| ==> |rows[i]| == w
    ensures |r| == |rows| && forall i :: 0 <= i < |rows| ==> r[i] == InsertBlank(rows[i], col)
  {
    seq(|rows|, i requires 0 <= i < |rows| => InsertBlank(rows[i], col))
  }

  method InsertBlankCol(table: seq<Id>, colNum: nat, col: nat, ghost rows: seq<Row>) returns (t: seq<Id>)
    requires Width(colNum, rows) && table == Flat(rows) && col <= colNum && (colNum == 0 ==> rows == [])
    ensures t == Flat(InsertBlanks(rows, colNum, col))
  {
    hide Flat;
    t := [];
    FlatNothing();
    if colNum == 0 { return; }
    RowCount(colNum, rows);
    ghost var rows' := InsertBlanks(rows, colNum, col);
    for i := 0 to |table| / colNum
      invariant t == Flat(rows'[..i])
    {
      FlatRow(colNum, rows, i);
      assert i * colNum == colNum * i && (i + 1) * colNum == colNum * i + colNum;
      t := t + table[i * colNum..i * colNum + col] + [BLANK_ID] + table[i * colNum + col..(i + 1) * colNum];
      CutRow(table, colNum * i, colNum, col);
      FlatSnoc(rows'[..i], rows'[i]);
      assert rows'[..i + 1] == rows'[..i] + [rows'[i]];
    }
    assert rows'[..|rows'|] == rows';
  }

  lemma FlatNothing()
    ensures Flat([]) == []
  {
  }

  lemma CutRow(table: seq<Id>, at: nat, w: nat, col: nat)
    requires at + w <= |table| && col <= w
    ensures table[at..at + col] == table[at..at + w][..col] && table[at + col..at + w] == table[at..at + w][col..]
  {
  }

  function PadRows(rows: seq<Row>, w: nat): (r: seq<Row>)
    requires forall i :: 0 <= i < |rows| ==> |rows[i]| <= w
    ensures |r| == |rows| && forall i :: 0 <= i < |rows| ==> r[i] == PadRow(rows[i], w) && |r[i]| == w
  {
    seq(|rows|, i requires 0 <= i < |rows| => PadRow(rows[i], w))
  }

  function ConvertRows(cols: seq<int>, pcols: seq<int>, prows: seq<Row>): (r: seq<Row>)
    requires Shaped(pcols, prows)
    ensures |r| == |prows| && forall i :: 0 <= i < |prows| ==> r[i] == Convert(cols, pcols, prows[i]) && |r[i]| == |cols|
  {
    seq(|prows|, i requires 0 <= i < |prows| => Convert(cols, pcols, prows[i]))
  }

  lemma PadMore(rows: seq<Row>, w: nat)
    requires forall i :: 0 <= i < |rows| ==> |rows[i]| <= w
    ensures InsertBlanks(PadRows(rows, w), w, w) == PadRows(rows, w + 1)
  {
    var a, b := InsertBlanks(PadRows(rows, w), w, w), PadRows(rows, w + 1);
    forall i | 0 <= i < |rows|
      ensures a[i] == b[i]
    {
      assert Blanks(w + 1 - |rows[i]|) == Blanks(w - |rows[i]|) + [BLANK_ID];
    }
  }

  lemma PadNothing(rows: seq<Row>, w: nat)
    requires Width(w, rows)
    ensures PadRows(rows, w) == rows
  {
    forall i | 0 <= i < |rows|
      ensures PadRows(rows, w)[i] == rows[i]
    {
      assert Blanks(0) == [];
    }
  }

  /** Merging adds the part's solution mappings. */
  lemma MergeMeans(cols: seq<int>, rows: seq<Row>, pcols: seq<int>, prows: seq<Row>, cols': seq<int>)
    requires Shaped(cols, rows) && Shaped(pcols, prows) && cols <= cols' && forall v :: v in pcols ==> v in cols'
    ensures Shaped(cols', PadRows(rows, |cols'|) + ConvertRows(cols', pcols, prows))
    ensures Mappings(cols', PadRows(rows, |cols'|) + ConvertRows(cols', pcols, prows)) == Mappings(cols, rows) + Mappings(pcols, prows)
  {
    hide MappingOf, Mappings;
    var a, b := PadRows(rows, |cols'|), ConvertRows(cols', pcols, prows);
    forall i | 0 <= i < |rows|
      ensures MappingOf(cols, rows[i]) == MappingOf(cols', a[i])
    {
      PadMeans(cols, cols', rows[i]);
    }
    forall i | 0 <= i < |prows|
      ensures MappingOf(pcols, prows[i]) == MappingOf(cols', b[i])
    {
      ConvertMeans(cols', pcols, prows[i]);
    }
    SameMappings(cols, rows, cols', a);
    SameMappings(pcols, prows, cols', b);
    MappingsConcat(cols', a, b);
  }

  /** For each merged column, the part's column of the same variable, once the variables with
      index below i have been looked at. */
  ghost predicate ColMapOk(colMap: seq<int>, cols: seq<int>, pcols: seq<int>, i: nat) {
    |cols| <= |colMap| && forall j :: 0 <= j < |colMap| ==>
      colMap[j] == if j < |cols| && cols[j] in pcols && cols[j] >= 0 - i then ColOf(pcols, cols[j]) else -1
  }

  /** Different variables of a query: there are at most nvars. */
  lemma {:induction false} FewCols(cols: seq<int>, nvars: nat)
    requires Distinct(cols) && forall x :: x in cols ==> 0 - nvars <= x < 0
    ensures |cols| <= nvars
  {
    if nvars == 0 {
      SomeColumn(cols, []);
    } else if 0 - nvars in cols {
      var c := ColOf(cols, 0 - nvars);
      var rest := cols[..c] + cols[c + 1..];
      DropOne(cols, c);
      assert cols[c] == 0 - nvars;
      forall x | x in rest
        ensures 0 - (nvars - 1) <= x < 0
      {
        assert x in cols && x != cols[c];
      }
      FewCols(rest, nvars - 1);
    } else {
      FewCols(cols, nvars - 1);
    }
  }

  lemma DropOne(cols: seq<int>, c: nat)
    requires Distinct(cols) && c < |cols|
    ensures Distinct(cols[..c] + cols[c + 1..])
    ensures forall x :: x in cols[..c] + cols[c + 1..] ==> x in cols && x != cols[c]
  {
    var rest := cols[..c] + cols[c + 1..];
    assert forall i :: 0 <= i < |rest| ==> rest[i] == if i < c then cols[i] else cols[i + 1];
  }

  class Merged {
    var nvars: nat
    var v2c: seq<int>
    var colNum: nat
    var rowNum: nat
    var table: seq<Id>

    ghost var cols: seq<int>
    ghost var rows: seq<Row>

    ghost predicate Valid()
      reads this
    {
      && V2c(v2c, cols, nvars) && colNum == |cols| && rowNum == |rows|
      && Shaped(cols, rows) && table == Flat(rows) && (cols == [] ==> rows == [])
    }

    constructor ()
      ensures Valid() && nvars == 0 && cols == [] && rows == []
    {
      nvars, v2c, colNum, rowNum, table := 0, [], 0, 0, [];
      cols, rows := [], [];
    }

    /** A new column, blank in all rows, for a variable that has none. */
    method AddColumn(vid: int, ghost rows0: seq<Row>)
      requires V2c(v2c, cols, nvars) && colNum == |cols| && 0 - nvars <= vid < 0 && vid !in cols
      requires (forall i :: 0 <= i < |rows0| ==> |rows0[i]| <= |cols|) && rows == PadRows(rows0, |cols|) && table == Flat(rows)
      requires cols == [] ==> rows == []
      modifies this`v2c, this`colNum, this`table, this`cols, this`rows
      ensures V2c(v2c, cols, nvars) && colNum == |cols| && cols == old(cols) + [vid]
      ensures rows == PadRows(rows0, |cols|) && table == Flat(rows)
    {
      hide V2c, Flat;
      PadMore(rows0, |cols|);
      V2cAdd(v2c, cols, nvars, vid);
      V2cFacts(v2c, cols, nvars);
      table := InsertBlankCol(table, colNum, colNum, rows);
      v2c := v2c[-(vid + 1) := colNum];
      colNum := colNum + 1;
      rows := PadRows(rows0, |cols| + 1);
      cols := cols + [vid];
    }

    /** Give every variable of the part a column. */
    method AlignColumns(p: Part, ghost pcols: seq<int>) returns (colMap: seq<int>)
      requires V2c(v2c, cols, nvars) && colNum == |cols| && Shaped(cols, rows) && table == Flat(rows) && (cols == [] ==> rows == [])
      requires p.nvars == nvars && V2c(p.v2c, pcols, nvars)
      modifies this`v2c, this`colNum, this`table, this`cols, this`rows
      ensures cols == MergeCols(old(cols), pcols, nvars) && Shaped(old(cols), old(rows)) && |old(cols)| <= |cols|
      ensures rows == PadRows(old(rows), |cols|)
      ensures V2c(v2c, cols, nvars) && colNum == |cols| && table == Flat(rows) && ColMapOk(colMap, cols, pcols, nvars)
    {
      hide V2c, Flat, Distinct, ColMapOk, MergeCols, ColOf, PadRows;
      ghost var cols0, rows0 := cols, rows;
      NoCol(cols0, pcols);
      V2cFacts(v2c, cols, nvars);
      PadNothing(rows, |cols|);
      FewCols(cols, nvars);
      colMap := seq(nvars, _ => -1);
      NothingMapped(colMap, cols, pcols);
      V2cFacts(p.v2c, pcols, nvars);
      for i := 0 to |p.v2c|
        invariant cols == MergeCols(cols0, pcols, i) && |cols0| <= |cols|
        invariant rows == PadRows(rows0, |cols|)
        invariant V2c(v2c, cols, nvars) && colNum == |cols| && table == Flat(rows) && ColMapOk(colMap, cols, pcols, i)
        invariant |colMap| == nvars
      {
        var vid := -1 - i;
        NextCol(cols0, pcols, i);
        ColumnMapped(v2c, colMap, p.v2c, cols, pcols, nvars, i);
        if v2c[i] == NO_RESULT && p.v2c[i] != NO_RESULT {
          AddColumn(vid, rows0);
          colMap := colMap[colNum - 1 := p.v2c[i]];
        } else if v2c[i] != NO_RESULT && p.v2c[i] == NO_RESULT {
          colMap := colMap[v2c[i] := -1];
        } else if v2c[i] != NO_RESULT && p.v2c[i] != NO_RESULT {
          colMap := colMap[v2c[i] := p.v2c[i]];
        }
      }
    }

    /** Append the part's rows, laid out in the merged columns. */
    method AppendRows(p: Part, colMap: seq<int>, ghost pcols: seq<int>, ghost prows: seq<Row>)
      requires colNum == |cols| && Shaped(cols, rows) && table == Flat(rows)
      requires PartOk(p, pcols, prows) && ColMapOk(colMap, cols, pcols, p.nvars)
      modifies this`table, this`rows
      ensures rows == old(rows) + ConvertRows(cols, pcols, prows) && table == Flat(rows)
    {
      hide Flat, V2c;
      ghost var added := ConvertRows(cols, pcols, prows);
      ghost var rows0 := rows;
      assert rows0 + added[..0] == rows0;
      for i := 0 to p.rowNum
        invariant table == Flat(rows0 + added[..i])
      {
        ghost var before := table;
        for j := 0 to colNum
          invariant table == before + added[i][..j]
        {
          CellOf(p, pcols, prows, cols, colMap, i, j);
          if colMap[j] == -1 {
            table := table + [BLANK_ID];
          } else {
            table := table + [p.table[i * p.colNum + colMap[j]]];
          }
        }
        assert added[i][..colNum] == added[i];
        FlatSnoc(rows0 + added[..i], added[i]);
        assert rows0 + added[..i + 1] == (rows0 + added[..i]) + [added[i]];
      }
      rows := rows0 + added;
      assert added[..|added|] == added;
    }

    /** Merge one more part. */
    method MergeUnion(p: Part, ghost pcols: seq<int>, ghost prows: seq<Row>)
      requires Valid() && PartOk(p, pcols, prows) && (nvars == p.nvars || nvars == 0)
      modifies this
      ensures Valid() && nvars == p.nvars
      ensures cols == MergeCols(old(cols), pcols, nvars)
      ensures Shaped(old(cols), old(rows))
      ensures Mappings(cols, rows) == Mappings(old(cols), old(rows)) + Mappings(pcols, prows)
    {
      hide Flat, Mappings, ColMapOk, Distinct;
      ghost var cols0, rows0 := cols, rows;
      nvars := p.nvars;
      if |v2c| < nvars { v2c := v2c + seq(nvars - |v2c|, _ => NO_RESULT); }
      rowNum := rowNum + p.rowNum;
      ResizeOk(v2c, cols, nvars);
      var colMap := AlignColumns(p, pcols);
      MergeColsFacts(cols0, pcols, nvars);
      SomeColumn(pcols, cols);
      AppendRows(p, colMap, pcols, prows);
      MergeMeans(cols0, rows0, pcols, prows, cols);
    }
  }

  lemma SomeColumn(pcols: seq<int>, cols: seq<int>)
    requires forall v :: v in pcols ==> v in cols
    ensures cols == [] ==> pcols == []
  {
    if pcols != [] {
      var x := pcols[0];
      assert x in pcols;
    }
  }

  lemma ResizeOk(v2c: seq<int>, cols: seq<int>, nvars: nat)
    requires V2c(v2c, cols, nvars) || (cols == [] && |v2c| == nvars && forall i :: 0 <= i < nvars ==> v2c[i] == NO_RESULT)
    ensures V2c(v2c, cols, nvars)
  {
  }

  /** What goes into cell (i, j) of the appended rows. */
  lemma CellOf(p: Part, pcols: seq<int>, prows: seq<Row>, cols: seq<int>, colMap: seq<int>, i: nat, j: nat)
    requires PartOk(p, pcols, prows) && ColMapOk(colMap, cols, pcols, p.nvars) && i < |prows| && j < |cols|
    ensures colMap[j] == -1 ==> Convert(cols, pcols, prows[i])[j] == BLANK_ID
    ensures colMap[j] != -1 ==> 0 <= i * p.colNum + colMap[j] < |p.table|
    ensures colMap[j] != -1 ==> p.table[i * p.colNum + colMap[j]] == Convert(cols, pcols, prows[i])[j]
  {
    if cols[j] in pcols {
      FlatAt(p.colNum, prows, i, ColOf(pcols, cols[j]));
      assert i * p.colNum == p.colNum * i;
    }
  }

  lemma V2cFacts(v2c: seq<int>, cols: seq<int>, nvars: nat)
    requires V2c(v2c, cols, nvars)
    ensures |v2c| == nvars && Distinct(cols) && forall x :: x in cols ==> 0 - nvars <= x < 0
    ensures forall i :: 0 <= i < nvars ==> v2c[i] == if -1 - i in cols then ColOf(cols, -1 - i) else NO_RESULT
  {
    forall i | 0 <= i < nvars
      ensures v2c[i] == if -1 - i in cols then ColOf(cols, -1 - i) else NO_RESULT
    {
      assert v2c[-((-1 - i) + 1)] == v2c[i];
    }
  }

  lemma NothingMapped(colMap: seq<int>, cols: seq<int>, pcols: seq<int>)
    requires |cols| <= |colMap| && (forall j :: 0 <= j < |colMap| ==> colMap[j] == -1) && forall x :: x in cols ==> x < 0
    ensures ColMapOk(colMap, cols, pcols, 0)
  {
    assert forall j :: 0 <= j < |cols| ==> cols[j] in cols;
  }

  /** One more variable looked at. */
  lemma ColumnMapped(v2c: seq<int>, colMap: seq<int>, pv2c: seq<int>, cols: seq<int>, pcols: seq<int>, nvars: nat, i: nat)
    requires V2c(v2c, cols, nvars) && V2c(pv2c, pcols, nvars) && i < nvars == |colMap| && ColMapOk(colMap, cols, pcols, i)
    ensures |v2c| == nvars && (v2c[i] != NO_RESULT ==> 0 <= v2c[i] < nvars)
    ensures v2c[i] == (if -1 - i in cols then ColOf(cols, -1 - i) else NO_RESULT)
    ensures pv2c[i] == if -1 - i in pcols then ColOf(pcols, -1 - i) else NO_RESULT
    ensures v2c[i] == NO_RESULT && pv2c[i] != NO_RESULT ==> |cols| < nvars
    ensures v2c[i] == NO_RESULT && pv2c[i] != NO_RESULT ==> ColMapOk(colMap[|cols| := pv2c[i]], cols + [-1 - i], pcols, i + 1)
    ensures v2c[i] == NO_RESULT && pv2c[i] == NO_RESULT ==> ColMapOk(colMap, cols, pcols, i + 1)
    ensures v2c[i] != NO_RESULT ==> ColMapOk(colMap[v2c[i] := pv2c[i]], cols, pcols, i + 1)
  {
    hide ColMapOk, V2c;
    V2cFacts(v2c, cols, nvars);
    V2cFacts(pv2c, pcols, nvars);
    if -1 - i in cols {
      FewCols(cols, nvars);
      OldColumn(colMap, cols, pcols, i);
    } else if -1 - i in pcols {
      FewCols(cols + [-1 - i], nvars);
      NewColumn(colMap, cols, pcols, i);
    } else {
      NoColumn(colMap, cols, pcols, i);
    }
  }

  lemma OldColumn(colMap: seq<int>, cols: seq<int>, pcols: seq<int>, i: nat)
    requires Distinct(cols) && -1 - i in cols && ColMapOk(colMap, cols, pcols, i)
    ensures ColMapOk(colMap[ColOf(cols, -1 - i) := if -1 - i in pcols then ColOf(pcols, -1 - i) else -1], cols, pcols, i + 1)
  {
    var c := ColOf(cols, -1 - i);
    assert forall j :: 0 <= j < |cols| && j != c ==> cols[j] != cols[c];
  }

  lemma NewColumn(colMap: seq<int>, cols: seq<int>, pcols: seq<int>, i: nat)
    requires -1 - i !in cols && -1 - i in pcols && ColMapOk(colMap, cols, pcols, i) && |cols| < |colMap|
    ensures ColMapOk(colMap[|cols| := ColOf(pcols, -1 - i)], cols + [-1 - i], pcols, i + 1)
  {
    assert forall j :: 0 <= j < |cols| ==> cols[j] in cols;
  }

  lemma NoColumn(colMap: seq<int>, cols: seq<int>, pcols: seq<int>, i: nat)
    requires -1 - i !in pcols && ColMapOk(colMap, cols, pcols, i)
    ensures ColMapOk(colMap, cols, pcols, i + 1)
  {
  }

  // ---- all parts ----

  ghost predicate AllOk(parts: seq<Part>, pcols: seq<seq<int>>, prows: seq<seq<Row>>) {
    && |parts| == |pcols| == |prows|
    && (forall i :: 0 <= i < |parts| ==> PartOk(parts[i], pcols[i], prows[i]))
    && forall i :: 0 <= i < |parts| ==> parts[i].nvars == parts[0].nvars
  }

  /** The solution mappings of the first n parts together. */
  ghost function AllMappings(parts: seq<Part>, pcols: seq<seq<int>>, prows: seq<seq<Row>>, n: nat): multiset<Mapping>
    requires AllOk(parts, pcols, prows) && n <= |parts|
  {
    if n == 0 then multiset{} else AllMappings(parts, pcols, prows, n - 1) + Mappings(pcols[n - 1], prows[n - 1])
  }

  /** The parts of a UNION, in the order their answers happen to come in. */
  method MergeAll(parts: seq<Part>, ghost pcols: seq<seq<int>>, ghost prows: seq<seq<Row>>) returns (m: Merged)
    requires AllOk(parts, pcols, prows)
    ensures fresh(m) && m.Valid()
    ensures Mappings(m.cols, m.rows) == AllMappings(parts, pcols, prows, |parts|)
    ensures forall v :: v in m.cols <==> exists i :: 0 <= i < |parts| && v in pcols[i]
  {
    hide Mappings, V2c;
    m := new Merged();
    NoMappings(m.cols);
    for i := 0 to |parts|
      invariant fresh(m) && m.Valid() && (i > 0 ==> m.nvars == parts[0].nvars) && (i == 0 ==> m.nvars == 0)
      invariant Mappings(m.cols, m.rows) == AllMappings(parts, pcols, prows, i)
      invariant forall v :: v in m.cols <==> exists k :: 0 <= k < i && v in pcols[k]
    {
      ghost var cols := m.cols;
      m.MergeUnion(parts[i], pcols[i], prows[i]);
      MergeColsFacts(cols, pcols[i], m.nvars);
      V2cFacts(parts[i].v2c, pcols[i], m.nvars);
    }
  }

  /** The order does not matter: exchanging two answers gives the same mappings. */
  lemma {:induction false} AllMappingsSwap(parts: seq<Part>, pcols: seq<seq<int>>, prows: seq<seq<Row>>, k: nat, n: nat)
    requires AllOk(parts, pcols, prows) && k + 1 < n <= |parts|
    ensures AllOk(Swapped(parts, k), Swapped(pcols, k), Swapped(prows, k))
    ensures AllMappings(Swapped(parts, k), Swapped(pcols, k), Swapped(prows, k), n) == AllMappings(parts, pcols, prows, n)
    decreases n
  {
    hide Mappings, PartOk;
    var a, b, c := Swapped(parts, k), Swapped(pcols, k), Swapped(prows, k);
    if n == k + 2 {
      AllMappingsSame(parts, pcols, prows, a, b, c, k);
      TwoMore(parts, pcols, prows, k);
      TwoMore(a, b, c, k);
    } else {
      AllMappingsSwap(parts, pcols, prows, k, n - 1);
    }
  }

  lemma TwoMore(parts: seq<Part>, pcols: seq<seq<int>>, prows: seq<seq<Row>>, k: nat)
    requires AllOk(parts, pcols, prows) && k + 1 < |parts|
    ensures Shaped(pcols[k], prows[k]) && Shaped(pcols[k + 1], prows[k + 1])
    ensures AllMappings(parts, pcols, prows, k + 2)
      == AllMappings(parts, pcols, prows, k) + Mappings(pcols[k], prows[k]) + Mappings(pcols[k + 1], prows[k + 1])
  {
    hide Mappings, V2c, Flat;
    assert AllMappings(parts, pcols, prows, k + 1) == AllMappings(parts, pcols, prows, k) + Mappings(pcols[k], prows[k]);
  }

  function Swapped<T>(s: seq<T>, k: nat): seq<T>
    requires k + 1 < |s|
  {
    s[k := s[k + 1]][k + 1 := s[k]]
  }

  lemma {:induction false} AllMappingsSame(parts: seq<Part>, pcols: seq<seq<int>>, prows: seq<seq<Row>>,
                                           a: seq<Part>, b: seq<seq<int>>, c: seq<seq<Row>>, n: nat)
    requires AllOk(parts, pcols, prows) && AllOk(a, b, c) && n <= |parts| == |a|
    requires forall i :: 0 <= i < n ==> b[i] == pcols[i] && c[i] == prows[i]
    ensures AllMappings(a, b, c, n) == AllMappings(parts, pcols, prows, n)
    decreases n
  {
    hide Mappings, PartOk;
    if n > 0 { AllMappingsSame(parts, pcols, prows, a, b, c, n - 1); }
  }
}
