/**
 * Starting a query (core/engine.hpp, execute_patterns and the first-pattern steps).
 *
 * A plan that starts from a constant runs on one engine.  A plan that starts from an index is
 * copied to every server and, on each, to mt_factor engine threads; the thread number decides
 * which part of the server's index list a copy takes.  The module proves when those parts make
 * up the list, and that the joined result is the solution set of the plan.
 */
module ParallelStart {
  import opened Query
  import opened ForkJoin

  // ---- which part of the index list a thread takes ----

  /** The engine thread that gets the j-th copy when thread `tid` starts the query. */
  function ThreadOf(tid: nat, j: nat, proxies: nat, engines: nat): (t: nat)
    requires proxies <= tid && engines > 0
    ensures proxies <= t < proxies + engines
  {
    (tid + j + 1 - proxies) % engines + proxies
  }

  function SliceNo(tid: nat, j: nat, proxies: nat, engines: nat, mt: nat): (k: nat)
    requires proxies <= tid && engines > 0 && mt > 0
    ensures k < mt
  {
    ThreadOf(tid, j, proxies, engines) % mt
  }

  /** The copies take different slices (hence every slice, there being as many of each). */
  ghost predicate AllSlices(tid: nat, proxies: nat, engines: nat, mt: nat)
    requires proxies <= tid && engines > 0 && mt > 0
  {
    forall i: nat, j: nat :: i < j < mt ==>
      SliceNo(tid, i, proxies, engines, mt) != SliceNo(tid, j, proxies, engines, mt)
  }

  /** The thread numbers of the copies do not run past the last engine. */
  predicate NoWrap(tid: nat, proxies: nat, engines: nat, mt: nat)
    requires proxies <= tid && engines > 0
  {
    (tid + 1 - proxies) % engines + mt <= engines
  }

  lemma ModUnique(a: int, q: int, m: nat, r: nat)
    requires r < m && a == q * m + r
    ensures a % m == r
  {
    var d := a / m - q;
    assert a == (a / m) * m + a % m;
    assert (a / m) * m - q * m == d * m;
    assert d >= 1 ==> d * m >= m;
    assert d <= -1 ==> d * m <= -(m as int);
  }

  /** Two numbers less than m apart differ modulo m. */
  lemma ModDiffer(a: int, b: int, m: nat)
    requires m > 0 && 0 < b - a < m
    ensures a % m != b % m
  {
    var q := b / m - a / m;
    assert b - a == q * m + (b % m - a % m);
    assert q <= 0 ==> q * m <= 0;
    assert q >= 1 ==> q * m >= m;
  }

  lemma ModShift(a: int, q: int, m: nat)
    requires m > 0
    ensures (a + q * m) % m == a % m
  {
    ModUnique(a + q * m, a / m + q, m, a % m);
  }

  lemma ModUnshift(n: nat, m: nat, a: int, b: int)
    requires m > 0 && n % m == 0
    ensures (a - n) % m == a % m && (b - n) % m == b % m
  {
    var q: int := n / m;
    assert n == q * m;
    assert (-q) * m == 0 - n;
    ModShift(a, -q, m);
    ModShift(b, -q, m);
  }

  /** Where the thread numbers of the copies go, once around at most. */
  lemma ThreadCases(tid: nat, j: nat, proxies: nat, engines: nat, a: nat)
    requires proxies <= tid && engines > 0 && j < engines && a == (tid + 1 - proxies) % engines
    ensures ThreadOf(tid, j, proxies, engines) == proxies + if a + j < engines then a + j else a + j - engines
  {
    var x := tid + 1 - proxies;
    var q := x / engines;
    assert x == q * engines + a;
    if a + j < engines {
      ModUnique(x + j, q, engines, a + j);
    } else {
      assert (q + 1) * engines == q * engines + engines;
      ModUnique(x + j, q + 1, engines, a + j - engines);
    }
  }

  /** The copies cover the index list exactly when their thread numbers do not wrap around, or
      mt_factor divides the number of engines. */
  lemma AllSlicesIff(tid: nat, proxies: nat, engines: nat, mt: nat)
    requires proxies <= tid && 0 < mt <= engines
    ensures AllSlices(tid, proxies, engines, mt) <==> NoWrap(tid, proxies, engines, mt) || engines % mt == 0
  {
    if NoWrap(tid, proxies, engines, mt) || engines % mt == 0 {
      forall i: nat, j: nat | i < j < mt
        ensures SliceNo(tid, i, proxies, engines, mt) != SliceNo(tid, j, proxies, engines, mt)
      {
        SlicesDiffer(tid, proxies, engines, mt, i, j);
      }
    } else {
      var i, j := SlicesClash(tid, proxies, engines, mt);
    }
  }

  lemma SlicesDiffer(tid: nat, proxies: nat, engines: nat, mt: nat, i: nat, j: nat)
    requires proxies <= tid && 0 < mt <= engines && i < j < mt
    requires NoWrap(tid, proxies, engines, mt) || engines % mt == 0
    ensures SliceNo(tid, i, proxies, engines, mt) != SliceNo(tid, j, proxies, engines, mt)
  {
    var a := (tid + 1 - proxies) % engines;
    ThreadCases(tid, i, proxies, engines, a);
    ThreadCases(tid, j, proxies, engines, a);
    ModDiffer(proxies + a + i, proxies + a + j, mt);
    if a + j >= engines { ModUnshift(engines, mt, proxies + a + i, proxies + a + j); }
  }

  lemma SlicesClash(tid: nat, proxies: nat, engines: nat, mt: nat) returns (i: nat, j: nat)
    requires proxies <= tid && 0 < mt <= engines
    requires !NoWrap(tid, proxies, engines, mt) && engines % mt != 0
    ensures i < j < mt && SliceNo(tid, i, proxies, engines, mt) == SliceNo(tid, j, proxies, engines, mt)
  {
    var a := (tid + 1 - proxies) % engines;
    var wrap := engines - a;
    var d := engines % mt;
    if d <= wrap { i, j := wrap - d, wrap; } else { i, j := 0, d; }
    ThreadCases(tid, i, proxies, engines, a);
    ThreadCases(tid, j, proxies, engines, a);
    var q: int := engines / mt;
    assert engines == q * mt + d;
    assert (-q) * mt == -(q * mt);
    assert proxies + a + j - engines == (proxies + a + i) + (-q) * mt;
    ModShift(proxies + a + i, -q, mt);
  }

  /** Three engines, two copies started by the second one: both take the same half. */
  lemma SlicesClashExample()
    ensures SliceNo(2, 0, 1, 3, 2) == SliceNo(2, 1, 1, 3, 2)
    ensures !AllSlices(2, 1, 3, 2)
  {
    assert SliceNo(2, 0, 1, 3, 2) == SliceNo(2, 1, 1, 3, 2);
  }

  // ---- the slices of a list ----

  /** A slice is a range of positions. */
  lemma SliceRange(xs: seq<Id>, mt: nat, k: nat) returns (lo: nat, hi: nat)
    requires k < mt
    ensures lo <= hi <= |xs| && Slice(xs, mt, k) == xs[lo..hi]
    ensures lo == k * (|xs| / mt) && hi == if k == mt - 1 then |xs| else (k + 1) * (|xs| / mt)
  {
    SliceBounds(|xs|, mt, k);
    lo := k * (|xs| / mt);
    hi := if k == mt - 1 then |xs| else (k + 1) * (|xs| / mt);
    var mid := (k + 1) * (|xs| / mt);
    assert xs[lo..mid] + xs[mid..] == xs[lo..];
  }

  lemma SliceDistinct(xs: seq<Id>, mt: nat, k: nat)
    requires k < mt && Distinct(xs)
    ensures Distinct(Slice(xs, mt, k))
    ensures forall v :: v in Slice(xs, mt, k) ==> v in xs
  {
    var lo, hi := SliceRange(xs, mt, k);
    assert forall i :: 0 <= i < hi - lo ==> xs[lo..hi][i] == xs[lo + i];
  }

  lemma SlicesDisjoint(xs: seq<Id>, mt: nat, k: nat, l: nat, v: Id)
    requires k < l < mt && Distinct(xs) && v in Slice(xs, mt, k)
    ensures v !in Slice(xs, mt, l)
  {
    var lo, hi := SliceRange(xs, mt, k);
    var lo', hi' := SliceRange(xs, mt, l);
    MulMono(k + 1, l, |xs| / mt);
    assert hi <= lo';
    var i :| 0 <= i < hi - lo && xs[lo..hi][i] == v;
    assert xs[lo + i] == v;
    assert forall j :: 0 <= j < hi' - lo' ==> xs[lo'..hi'][j] == xs[lo' + j];
  }

  /** Every member of the list is in some slice. */
  lemma {:induction false} InSomeSlice(xs: seq<Id>, mt: nat, k: nat, v: Id) returns (l: nat)
    requires k <= mt && v in SlicesTo(xs, mt, k)
    ensures l < k && v in Slice(xs, mt, l)
  {
    if v in Slice(xs, mt, k - 1) { l := k - 1; } else { l := InSomeSlice(xs, mt, k - 1, v); }
  }

  // ---- as many different numbers below n as there can be ----

  lemma {:induction false} BelowSize(n: nat, s: set<nat>)
    requires forall x :: x in s ==> x < n
    ensures |s| <= n
  {
    if n == 0 {
      assert s == {};
    } else {
      BelowSize(n - 1, s - {n - 1});
      assert s <= (s - {n - 1}) + {n - 1};
      assert n - 1 !in s ==> s - {n - 1} == s;
    }
  }

  ghost function Members(s: seq<nat>): (m: set<nat>)
    ensures forall x :: x in m <==> x in s
  {
    if s == [] then {} else Members(s[1..]) + {s[0]}
  }

  lemma {:induction false} DistinctSize(s: seq<nat>)
    requires Distinct(s)
    ensures |Members(s)| == |s|
  {
    if s != [] {
      DistinctSize(s[1..]);
      assert s[0] !in s[1..];
    }
  }

  lemma Onto(s: seq<nat>, n: nat, k: nat)
    requires Distinct(s) && |s| == n && k < n && forall i :: 0 <= i < n ==> s[i] < n
    ensures k in s
  {
    DistinctSize(s);
    BelowSize(n, Members(s) + {k});
  }

  // ---- a query that starts from an index ----

  /** The copies of a query: sub-query (i, j) is the j-th copy on server i and takes slice
      slices[j] of that server's index list. */
  datatype Copies = Copies(slices: seq<nat>, kids: seq<seq<Sched>>, order: seq<(nat, nat)>)

  ghost predicate IsCopies(c: Copies, n: nat, mt: nat, k: nat) {
    && |c.slices| == mt && |c.kids| == n
    && (forall j :: 0 <= j < mt ==> c.slices[j] < mt)
    && (forall i :: 0 <= i < n ==> |c.kids[i]| == mt)
    && (forall i, j :: 0 <= i < n && 0 <= j < mt ==> Fits(c.kids[i][j], k, n))
    && InOrder(c.order, n, mt)
  }

  ghost predicate InOrder(order: seq<(nat, nat)>, n: nat, mt: nat) {
    forall t :: 0 <= t < |order| ==> order[t].0 < n && order[t].1 < mt
  }

  /** All replies arrive, each once. */
  ghost predicate AllReplies(order: seq<(nat, nat)>, n: nat, mt: nat) {
    Distinct(order) && forall i: nat, j: nat :: i < n && j < mt ==> (i, j) in order
  }

  function Piece(st: Store, q: Pattern, mt: nat, i: nat, k: nat): (rows: seq<Row>)
    requires k < mt
    ensures forall t :: 0 <= t < |rows| ==> |rows[t]| == 1
  {
    StartRows(Slice(st.index(i, q.subj, q.pred, q.dir), mt, k))
  }

  /** The copies' replies, appended in the order they come back. */
  ghost function JoinCopies(st: Store, q: Pattern, rest: seq<Pattern>, mt: nat, c: Copies, order: seq<(nat, nat)>): (r: seq<Row>)
    requires st.servers > 0 && Executable([q.obj], rest)
    requires IsCopies(c, st.servers, mt, |rest|) && InOrder(order, st.servers, mt)
    ensures Shaped(FinalCols([q.obj], rest), r)
    decreases |order|
  {
    if order == [] then []
    else
      var (i, j) := order[0];
      Run(st, [q.obj], rest, Piece(st, q, mt, i, c.slices[j]), c.kids[i][j])
      + JoinCopies(st, q, rest, mt, c, order[1..])
  }

  /** The rows that the copies start with, together. */
  ghost function Pieces(st: Store, q: Pattern, mt: nat, slices: seq<nat>, order: seq<(nat, nat)>): (r: seq<Row>)
    requires |slices| == mt && (forall j :: 0 <= j < mt ==> slices[j] < mt) && InOrder(order, st.servers, mt)
    ensures Shaped([q.obj], r)
    decreases |order|
  {
    if order == [] then []
    else Piece(st, q, mt, order[0].0, slices[order[0].1]) + Pieces(st, q, mt, slices, order[1..])
  }

  lemma {:induction false} JoinIsPieces(st: Store, q: Pattern, rest: seq<Pattern>, mt: nat, c: Copies, order: seq<(nat, nat)>)
    requires st.servers > 0 && Executable([q.obj], rest)
    requires IsCopies(c, st.servers, mt, |rest|) && InOrder(order, st.servers, mt)
    ensures multiset(JoinCopies(st, q, rest, mt, c, order))
      == multiset(Explore(st, [q.obj], rest, Pieces(st, q, mt, c.slices, order)))
    decreases |order|
  {
    hide Explore, Run, Piece, Fits;
    var cols := [q.obj];
    if order == [] {
      ExploreNone(st, cols, rest);
    } else {
      var (i, j) := order[0];
      var piece := Piece(st, q, mt, i, c.slices[j]);
      RunIsExplore(st, cols, rest, piece, c.kids[i][j]);
      JoinIsPieces(st, q, rest, mt, c, order[1..]);
      ExploreConcat(st, cols, rest, piece, Pieces(st, q, mt, c.slices, order[1..]));
    }
  }

  // ---- the pieces are the solutions of the first pattern ----

  lemma InPiece(st: Store, q: Pattern, mt: nat, i: nat, k: nat, r: Row)
    requires k < mt
    ensures r in Piece(st, q, mt, i, k) <==> |r| == 1 && r[0] in Slice(st.index(i, q.subj, q.pred, q.dir), mt, k)
  {
    InExtend([], Slice(st.index(i, q.subj, q.pred, q.dir), mt, k), r);
  }

  lemma {:induction false} InPieces(st: Store, q: Pattern, mt: nat, slices: seq<nat>, order: seq<(nat, nat)>, r: Row)
    requires |slices| == mt && (forall j :: 0 <= j < mt ==> slices[j] < mt) && InOrder(order, st.servers, mt)
    ensures r in Pieces(st, q, mt, slices, order) <==>
      exists i: nat, j: nat :: (i, j) in order && r in Piece(st, q, mt, i, slices[j])
    decreases |order|
  {
    hide Piece;
    if order != [] {
      InPieces(st, q, mt, slices, order[1..], r);
      assert order == [order[0]] + order[1..];
    }
  }

  lemma {:induction false} PiecesDistinct(st: Store, g: set<Triple>, q: Pattern, mt: nat, slices: seq<nat>, order: seq<(nat, nat)>)
    requires Holds(st, g) && IndexKept(q) && KindOk(g, q)
    requires |slices| == mt && (forall j :: 0 <= j < mt ==> slices[j] < mt) && InOrder(order, st.servers, mt)
    requires Distinct(slices) && Distinct(order)
    ensures Distinct(Pieces(st, q, mt, slices, order))
    decreases |order|
  {
    hide Slice, Indexed;
    if order != [] {
      var (i, j) := order[0];
      var a, b := Piece(st, q, mt, i, slices[j]), Pieces(st, q, mt, slices, order[1..]);
      PiecesDistinct(st, g, q, mt, slices, order[1..]);
      SliceDistinct(st.index(i, q.subj, q.pred, q.dir), mt, slices[j]);
      ExtendDistinct([], Slice(st.index(i, q.subj, q.pred, q.dir), mt, slices[j]));
      forall r | r in a
        ensures r !in b
      {
        InPieces(st, q, mt, slices, order[1..], r);
        if r in b {
          var i': nat, j': nat :| (i', j') in order[1..] && r in Piece(st, q, mt, i', slices[j']);
          PiecesDisjoint(st, g, q, mt, i, slices[j], i', slices[j'], r);
          assert false;
        }
      }
      DistinctConcat(a, b);
    }
  }

  lemma PiecesDisjoint(st: Store, g: set<Triple>, q: Pattern, mt: nat, i: nat, k: nat, i': nat, k': nat, r: Row)
    requires Holds(st, g) && IndexKept(q) && KindOk(g, q) && i < st.servers && i' < st.servers && k < mt && k' < mt
    requires r in Piece(st, q, mt, i, k) && r in Piece(st, q, mt, i', k')
    ensures i == i' && k == k'
  {
    hide Slice, Indexed;
    InPiece(st, q, mt, i, k, r);
    InPiece(st, q, mt, i', k', r);
    SliceDistinct(st.index(i, q.subj, q.pred, q.dir), mt, k);
    SliceDistinct(st.index(i', q.subj, q.pred, q.dir), mt, k');
    assert r[0] % st.servers == i && r[0] % st.servers == i';
    if k < k' { SlicesDisjoint(st.index(i, q.subj, q.pred, q.dir), mt, k, k', r[0]); }
    if k' < k { SlicesDisjoint(st.index(i, q.subj, q.pred, q.dir), mt, k', k, r[0]); }
  }

  /** Every indexed vertex is in one of the pieces. */
  lemma PiecesComplete(st: Store, g: set<Triple>, q: Pattern, mt: nat, slices: seq<nat>, order: seq<(nat, nat)>, r: Row)
    requires Holds(st, g) && IndexKept(q) && KindOk(g, q) && mt > 0
    requires |slices| == mt && (forall j :: 0 <= j < mt ==> slices[j] < mt) && InOrder(order, st.servers, mt)
    requires Distinct(slices) && AllReplies(order, st.servers, mt)
    ensures r in Pieces(st, q, mt, slices, order) <==> |r| == 1 && Indexed(g, q, r[0])
  {
    hide Slice, Indexed;
    InPieces(st, q, mt, slices, order, r);
    if r in Pieces(st, q, mt, slices, order) {
      var i: nat, j: nat :| (i, j) in order && r in Piece(st, q, mt, i, slices[j]);
      InPiece(st, q, mt, i, slices[j], r);
      SliceDistinct(st.index(i, q.subj, q.pred, q.dir), mt, slices[j]);
    }
    if |r| == 1 && Indexed(g, q, r[0]) {
      var i := r[0] % st.servers;
      var xs := st.index(i, q.subj, q.pred, q.dir);
      SlicesPartition(xs, mt, mt);
      var k := InSomeSlice(xs, mt, mt, r[0]);
      Onto(slices, mt, k);
      var j :| 0 <= j < mt && slices[j] == k;
      InPiece(st, q, mt, i, k, r);
      assert (i, j) in order;
    }
  }

  lemma PiecesSolve(st: Store, g: set<Triple>, q: Pattern, mt: nat, slices: seq<nat>, order: seq<(nat, nat)>)
    requires Holds(st, g) && IndexKept(q) && KindOk(g, q) && mt > 0 && q.obj < 0
    requires |slices| == mt && (forall j :: 0 <= j < mt ==> slices[j] < mt) && InOrder(order, st.servers, mt)
    requires Distinct(slices) && AllReplies(order, st.servers, mt)
    ensures IsSolutionTable(g, [q], [q.obj], Pieces(st, q, mt, slices, order))
  {
    hide Holds;
    PiecesDistinct(st, g, q, mt, slices, order);
    assert AllBound([q.obj], [q]);
    forall r
      ensures r in Pieces(st, q, mt, slices, order) <==> Solution(g, [q], [q.obj], r)
    {
      PiecesComplete(st, g, q, mt, slices, order, r);
      OnePattern(g, q, r);
    }
  }

  lemma OnePattern(g: set<Triple>, q: Pattern, r: Row)
    requires q.obj < 0 && q.subj >= 0 && q.pred >= 0
    ensures AllBound([q.obj], [q])
    ensures Solution(g, [q], [q.obj], r) <==>
      |r| == 1 && if IsIndexPattern(q) then Indexed(g, q, r[0]) else Edge(g, q.subj, q.pred, q.dir, r[0])
  {
    assert [q][0] == q;
    if |r| == 1 { assert Val([q.obj], r, q.obj) == r[0]; }
  }

  // ---- whole queries ----

  lemma SameRowsSolve(g: set<Triple>, pats: seq<Pattern>, cols: seq<int>, a: seq<Row>, b: seq<Row>)
    requires IsSolutionTable(g, pats, cols, a) && multiset(a) == multiset(b)
    ensures IsSolutionTable(g, pats, cols, b)
  {
    hide Solution;
    forall r
      ensures r in a <==> r in b
    {
      assert r in multiset(a) <==> r in multiset(b);
    }
    forall i | 0 <= i < |b|
      ensures |b[i]| == |cols|
    {
      assert b[i] in a;
    }
    DistinctOnce(a);
    OnceDistinct(b);
  }

  lemma {:induction false} DistinctOnce<T>(a: seq<T>)
    requires Distinct(a)
    ensures forall r :: multiset(a)[r] <= 1
  {
    if a != [] {
      DistinctOnce(a[1..]);
      assert a == [a[0]] + a[1..];
      assert a[0] !in a[1..];
      assert a[0] !in multiset(a[1..]);
    }
  }

  lemma OnceDistinct(b: seq<Row>)
    requires forall r :: multiset(b)[r] <= 1
    ensures Distinct(b)
  {
    forall i, j | 0 <= i < j < |b|
      ensures b[i] != b[j]
    {
      assert b == b[..j] + b[j..];
      assert b[i] == b[..j][i] && b[i] in multiset(b[..j]);
      assert b[j] == b[j..][0] && b[j] in multiset(b[j..]);
      assert multiset(b)[b[j]] == multiset(b[..j])[b[j]] + multiset(b[j..])[b[j]];
    }
  }

  lemma FirstPattern(plan: seq<Pattern>)
    requires plan != [] && (Ordered([], plan) || Executable([], plan))
    ensures plan[0].obj < 0 && plan[0].subj >= 0 && plan[0].pred >= 0
    ensures Executable([plan[0].obj], plan[1..]) && Ordered([plan[0].obj], plan[1..])
    ensures FinalCols([], plan) == FinalCols([plan[0].obj], plan[1..])
    ensures [plan[0]] + plan[1..] == plan
    ensures if IsIndexPattern(plan[0]) then IndexKept(plan[0]) else Stored(plan[0].pred, plan[0].dir)
  {
    assert ColsAfter([], plan[0]) == [plan[0].obj];
    ExecutableIff([plan[0].obj], plan[1..]);
  }

  /** A plan that starts from an index, split over all servers and mt_factor threads on each,
      with any fork decisions and any arrival orders, ends with exactly its solutions, provided
      the thread numbers of the copies do not wrap or mt_factor divides the engine count. */
  lemma IndexQuerySolutions(st: Store, g: set<Triple>, plan: seq<Pattern>, tid: nat, proxies: nat, engines: nat, mt: nat, c: Copies)
    requires Holds(st, g) && plan != [] && Executable([], plan) && IsIndexPattern(plan[0]) && KindOk(g, plan[0])
    requires proxies <= tid && 0 < mt <= engines
    requires NoWrap(tid, proxies, engines, mt) || engines % mt == 0
    requires IsCopies(c, st.servers, mt, |plan| - 1) && AllReplies(c.order, st.servers, mt)
    requires forall j :: 0 <= j < mt ==> c.slices[j] == SliceNo(tid, j, proxies, engines, mt)
    ensures Executable([plan[0].obj], plan[1..])
    ensures IsSolutionTable(g, plan, FinalCols([], plan), JoinCopies(st, plan[0], plan[1..], mt, c, c.order))
  {
    hide Explore, JoinCopies, IsSolutionTable, SliceNo, Executable, FinalCols;
    var q, rest := plan[0], plan[1..];
    FirstPattern(plan);
    AllSlicesIff(tid, proxies, engines, mt);
    assert Distinct(c.slices);
    var pieces := Pieces(st, q, mt, c.slices, c.order);
    PiecesSolve(st, g, q, mt, c.slices, c.order);
    ExploreSolutions(st, g, [q], [q.obj], rest, pieces);
    JoinIsPieces(st, q, rest, mt, c, c.order);
    SameRowsSolve(g, plan, FinalCols([], plan), Explore(st, [q.obj], rest, pieces), JoinCopies(st, q, rest, mt, c, c.order));
  }

  lemma ConstSolve(st: Store, g: set<Triple>, q: Pattern)
    requires Holds(st, g) && Joins([], q) && !IsIndexPattern(q)
    ensures IsSolutionTable(g, [q], [q.obj], StartRows(st.adj(q.subj, q.pred, q.dir)))
  {
    var xs := st.adj(q.subj, q.pred, q.dir);
    ExtendDistinct([], xs);
    OnePattern(g, q, []);
    forall r
      ensures r in StartRows(xs) <==> Solution(g, [q], [q.obj], r)
    {
      InExtend([], xs, r);
      OnePattern(g, q, r);
    }
  }

  /** A plan that starts from a constant ends with exactly its solutions. */
  lemma ConstQuerySolutions(st: Store, g: set<Triple>, plan: seq<Pattern>, sched: Sched)
    requires Holds(st, g) && plan != [] && Executable([], plan) && !IsIndexPattern(plan[0])
    requires Fits(sched, |plan| - 1, st.servers)
    ensures Executable([plan[0].obj], plan[1..])
    ensures IsSolutionTable(g, plan, FinalCols([], plan),
      Run(st, [plan[0].obj], plan[1..], StartRows(st.adj(plan[0].subj, plan[0].pred, plan[0].dir)), sched))
  {
    hide Explore, Run, Executable, FinalCols, Fits;
    var q, rest := plan[0], plan[1..];
    FirstPattern(plan);
    var rows := StartRows(st.adj(q.subj, q.pred, q.dir));
    ConstSolve(st, g, q);
    ExploreSolutions(st, g, [q], [q.obj], rest, rows);
    RunIsExplore(st, [q.obj], rest, rows, sched);
    SameRowsSolve(g, plan, FinalCols([], plan), Explore(st, [q.obj], rest, rows), Run(st, [q.obj], rest, rows, sched));
  }

  // ---- blind queries ----

  ghost function CountCopies(st: Store, q: Pattern, rest: seq<Pattern>, mt: nat, c: Copies, order: seq<(nat, nat)>): nat
    requires st.servers > 0 && Executable([q.obj], rest)
    requires IsCopies(c, st.servers, mt, |rest|) && InOrder(order, st.servers, mt)
    decreases |order|
  {
    if order == [] then 0
    else
      var (i, j) := order[0];
      Count(st, [q.obj], rest, Piece(st, q, mt, i, c.slices[j]), c.kids[i][j])
      + CountCopies(st, q, rest, mt, c, order[1..])
  }

  /** The summed row counts of the copies are the number of rows they would have sent. */
  lemma {:induction false} CountCopiesIsRows(st: Store, q: Pattern, rest: seq<Pattern>, mt: nat, c: Copies, order: seq<(nat, nat)>)
    requires st.servers > 0 && Executable([q.obj], rest)
    requires IsCopies(c, st.servers, mt, |rest|) && InOrder(order, st.servers, mt)
    ensures CountCopies(st, q, rest, mt, c, order) == |JoinCopies(st, q, rest, mt, c, order)|
    decreases |order|
  {
    hide Run, Count, Fits, Piece;
    if order != [] {
      var (i, j) := order[0];
      CountIsRows(st, [q.obj], rest, Piece(st, q, mt, i, c.slices[j]), c.kids[i][j]);
      CountCopiesIsRows(st, q, rest, mt, c, order[1..]);
    }
  }
}
