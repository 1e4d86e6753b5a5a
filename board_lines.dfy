/** Board-wide line scanning and absolute scoring (findWinningLines and calculateScores in utils.ts). */
module BoardLines {
  import opened Types
  import opened Constants
  import opened Runs

  function RowLine(b: Board, r: int): (t: seq<LineCell>)
    requires 0 <= r < |b|
    ensures |t| == |b[r]|
  {
    seq(|b[r]|, c requires 0 <= c < |b[r]| => LineCell(b[r][c].owner, r, c))
  }

  function ColLine(b: Board, c: int): (t: seq<LineCell>)
    requires IsSquare(b) && 0 <= c < |b|
    ensures |t| == |b|
  {
    seq(|b|, r requires 0 <= r < |b| => LineCell(b[r][c].owner, r, c))
  }

  /** The k-th diagonal (cells with r + c == k) as the inner loop has built it after columns 0..n-1. */
  function Diag1Upto(b: Board, k: nat, n: nat): seq<LineCell>
    requires IsSquare(b) && n <= k + 1
  {
    if n == 0 then []
    else
      var c := n - 1;
      var r := k - c;
      if r < |b| && c < |b| then Diag1Upto(b, k, n - 1) + [LineCell(b[r][c].owner, r, c)] else Diag1Upto(b, k, n - 1)
  }

  /** The mirror of Diag1Upto: the same rows, columns reflected to |b| - 1 - c. */
  function Diag2Upto(b: Board, k: nat, n: nat): seq<LineCell>
    requires IsSquare(b) && n <= k + 1
  {
    if n == 0 then []
    else
      var c := n - 1;
      var r := k - c;
      if r < |b| && c < |b| then Diag2Upto(b, k, n - 1) + [LineCell(b[r][|b| - 1 - c].owner, r, |b| - 1 - c)]
      else Diag2Upto(b, k, n - 1)
  }

  function Diag1(b: Board, k: nat): seq<LineCell>
    requires IsSquare(b)
  {
    Diag1Upto(b, k, k + 1)
  }

  function Diag2(b: Board, k: nat): seq<LineCell>
    requires IsSquare(b)
  {
    Diag2Upto(b, k, k + 1)
  }

  /** Diagonal k after columns 0..n-1: every board cell with r + c == k and c < n, carrying its owner. */
  lemma {:induction false} Diag1UptoMember(b: Board, k: nat, n: nat)
    requires IsSquare(b) && n <= k + 1
    ensures forall x :: x in Diag1Upto(b, k, n) <==>
      InBoard(b, x.r, x.c) && x.r + x.c == k && x.c < n && x.owner == b[x.r][x.c].owner
  {
    if n > 0 {
      Diag1UptoMember(b, k, n - 1);
    }
  }

  /** The mirrored diagonal after columns 0..n-1: every board cell with r + (|b| - 1 - c) == k and |b| - 1 - c < n. */
  lemma {:induction false} Diag2UptoMember(b: Board, k: nat, n: nat)
    requires IsSquare(b) && n <= k + 1
    ensures forall x :: x in Diag2Upto(b, k, n) <==>
      InBoard(b, x.r, x.c) && x.r + (|b| - 1 - x.c) == k && |b| - 1 - x.c < n && x.owner == b[x.r][x.c].owner
  {
    if n > 0 {
      Diag2UptoMember(b, k, n - 1);
    }
  }

  /** The cells come row by row from the bottom up. */
  predicate RowsDecreasing(d: seq<LineCell>) {
    forall i, j :: 0 <= i < j < |d| ==> d[i].r > d[j].r
  }

  /** Appending a cell below every row seen so far keeps the rows strictly decreasing. */
  lemma SnocDecreasing(d: seq<LineCell>, x: LineCell)
    requires RowsDecreasing(d)
    requires forall y :: y in d ==> y.r > x.r
    ensures RowsDecreasing(d + [x])
  {
    var d' := d + [x];
    forall i, j | 0 <= i < j < |d'| ensures d'[i].r > d'[j].r {
      assert d'[i] == d[i];
      if j < |d| {
        assert d'[j] == d[j];
      } else {
        assert d[i] in d;
      }
    }
  }

  /** Diagonal k lists its cells from the bottom row up, i.e. in the order of increasing loop index. */
  lemma {:induction false} Diag1UptoOrdered(b: Board, k: nat, n: nat)
    requires IsSquare(b) && n <= k + 1
    ensures RowsDecreasing(Diag1Upto(b, k, n))
  {
    if n > 0 {
      Diag1UptoOrdered(b, k, n - 1);
      Diag1UptoMember(b, k, n - 1);
      var c := n - 1;
      var r := k - c;
      if r < |b| && c < |b| {
        SnocDecreasing(Diag1Upto(b, k, n - 1), LineCell(b[r][c].owner, r, c));
      }
    }
  }

  /** The same for the mirrored diagonal. */
  lemma {:induction false} Diag2UptoOrdered(b: Board, k: nat, n: nat)
    requires IsSquare(b) && n <= k + 1
    ensures RowsDecreasing(Diag2Upto(b, k, n))
  {
    if n > 0 {
      Diag2UptoOrdered(b, k, n - 1);
      Diag2UptoMember(b, k, n - 1);
      var c := n - 1;
      var r := k - c;
      if r < |b| && c < |b| {
        SnocDecreasing(Diag2Upto(b, k, n - 1), LineCell(b[r][|b| - 1 - c].owner, r, |b| - 1 - c));
      }
    }
  }

  /** Diagonal k of the first family is exactly the board cells with r + c == k, and the second family exactly
      the cells (r, |b| - 1 - c) mirrored from them, each with its owner and ordered by decreasing row. */
  lemma Diagonals(b: Board, k: nat)
    requires IsSquare(b)
    ensures forall x :: x in Diag1(b, k) <==> InBoard(b, x.r, x.c) && x.r + x.c == k && x.owner == b[x.r][x.c].owner
    ensures forall x :: x in Diag2(b, k) <==>
      InBoard(b, x.r, x.c) && x.r + (|b| - 1 - x.c) == k && x.owner == b[x.r][x.c].owner
    ensures RowsDecreasing(Diag1(b, k)) && RowsDecreasing(Diag2(b, k))
  {
    Diag1UptoMember(b, k, k + 1);
    Diag2UptoMember(b, k, k + 1);
    Diag1UptoOrdered(b, k, k + 1);
    Diag2UptoOrdered(b, k, k + 1);
  }

  /** The two diagonals of one index, each kept only when it has at least 3 cells. */
  function Kept(d1: seq<LineCell>, d2: seq<LineCell>): seq<seq<LineCell>> {
    var withD1 := if |d1| >= 3 then [d1] else [];
    if |d2| >= 3 then withD1 + [d2] else withD1
  }

  function DiagPair(b: Board, k: nat): seq<seq<LineCell>>
    requires IsSquare(b)
  {
    Kept(Diag1(b, k), Diag2(b, k))
  }

  /** The diagonals 0..k-1 of both families that have at least 3 cells, in the order the loop visits them. */
  function DiagTraversals(b: Board, k: nat): seq<seq<LineCell>>
    requires IsSquare(b)
  {
    if k == 0 then [] else DiagTraversals(b, k - 1) + DiagPair(b, k - 1)
  }

  /** Rows 0..n-1. */
  function RowsUpto(b: Board, n: nat): (ts: seq<seq<LineCell>>)
    requires n <= |b|
    ensures |ts| == n
  {
    if n == 0 then [] else RowsUpto(b, n - 1) + [RowLine(b, n - 1)]
  }

  /** Columns 0..n-1. */
  function ColsUpto(b: Board, n: nat): (ts: seq<seq<LineCell>>)
    requires IsSquare(b) && n <= |b|
    ensures |ts| == n
  {
    if n == 0 then [] else ColsUpto(b, n - 1) + [ColLine(b, n - 1)]
  }

  function Rows(b: Board): seq<seq<LineCell>> {
    RowsUpto(b, |b|)
  }

  function Cols(b: Board): seq<seq<LineCell>>
    requires IsSquare(b)
  {
    ColsUpto(b, |b|)
  }

  /** The number of diagonals of each family: 2 * size - 1 (none on the empty board). */
  function DiagCount(b: Board): nat {
    if |b| == 0 then 0 else 2 * |b| - 1
  }

  /** Every traversal both scanners walk: rows, columns, then the long diagonals. */
  function Traversals(b: Board): seq<seq<LineCell>>
    requires IsSquare(b)
  {
    Rows(b) + Cols(b) + DiagTraversals(b, DiagCount(b))
  }

  function LinesOf(ts: seq<seq<LineCell>>): seq<WinningLine> {
    if ts == [] then [] else LinesOf(ts[..|ts| - 1]) + StreakLines(ts[|ts| - 1])
  }

  /** What findWinningLines returns. */
  function WinningLines(b: Board): seq<WinningLine>
    requires IsSquare(b)
  {
    LinesOf(Traversals(b))
  }

  /** The points scoreLine gives p over the traversals ts. */
  function PointsOver(ts: seq<seq<LineCell>>, p: Player): int {
    if ts == [] then 0 else PointsOver(ts[..|ts| - 1], p) + LineScores(Owners(ts[|ts| - 1])).Get(p)
  }

  function ScoresOf(ts: seq<seq<LineCell>>): Scores {
    Scores(PointsOver(ts, Rouge), PointsOver(ts, Bleu), PointsOver(ts, Vert))
  }

  /** What calculateScores returns. */
  function BoardScores(b: Board): Scores
    requires IsSquare(b)
  {
    ScoresOf(Traversals(b))
  }

  lemma LinesOfSnoc(ts: seq<seq<LineCell>>, t: seq<LineCell>)
    ensures LinesOf(ts + [t]) == LinesOf(ts) + StreakLines(t)
  {
    assert (ts + [t])[..|ts|] == ts;
  }

  lemma AppendAssoc<T>(x: seq<T>, y: seq<T>, z: seq<T>)
    ensures (x + y) + z == x + (y + z)
  {
  }

  lemma {:induction false} LinesOfAppend(a: seq<seq<LineCell>>, c: seq<seq<LineCell>>)
    ensures LinesOf(a + c) == LinesOf(a) + LinesOf(c)
    decreases |c|
  {
    if c == [] {
      assert a + c == a;
    } else {
      var init, t := c[..|c| - 1], c[|c| - 1];
      assert c == init + [t];
      assert a + c == (a + init) + [t];
      LinesOfAppend(a, init);
      LinesOfSnoc(a + init, t);
      LinesOfSnoc(init, t);
      AppendAssoc(LinesOf(a), LinesOf(init), StreakLines(t));
    }
  }

  lemma {:induction false} PointsOverAppend(a: seq<seq<LineCell>>, c: seq<seq<LineCell>>, p: Player)
    ensures PointsOver(a + c, p) == PointsOver(a, p) + PointsOver(c, p)
    decreases |c|
  {
    if c == [] {
      assert a + c == a;
    } else {
      var init, t := c[..|c| - 1], c[|c| - 1];
      assert (a + c)[..|a + c| - 1] == a + init;
      assert (a + c)[|a + c| - 1] == t;
      PointsOverAppend(a, init, p);
    }
  }

  lemma ScoresOfAppend(a: seq<seq<LineCell>>, c: seq<seq<LineCell>>)
    ensures ScoresOf(a + c) == ScoresOf(a).Add(ScoresOf(c))
  {
    PointsOverAppend(a, c, Rouge);
    PointsOverAppend(a, c, Bleu);
    PointsOverAppend(a, c, Vert);
  }

  lemma ScoresOfSnoc(ts: seq<seq<LineCell>>, t: seq<LineCell>)
    ensures ScoresOf(ts + [t]) == ScoresOf(ts).Add(LineScores(Owners(t)))
  {
    assert (ts + [t])[..|ts|] == ts;
  }

  /** Column n of the scan of diagonal k: the cell it adds to each family, if it is on the board. */
  lemma DiagUptoStep(b: Board, k: nat, n: nat)
    requires IsSquare(b) && n <= k
    ensures var r := k - n;
      Diag1Upto(b, k, n + 1) == if r < |b| && n < |b| then Diag1Upto(b, k, n) + [LineCell(b[r][n].owner, r, n)] else Diag1Upto(b, k, n)
    ensures var r := k - n;
      Diag2Upto(b, k, n + 1)
      == if r < |b| && n < |b| then Diag2Upto(b, k, n) + [LineCell(b[r][|b| - 1 - n].owner, r, |b| - 1 - n)] else Diag2Upto(b, k, n)
  {
  }

  /** The inner loop of findWinningLines: the cells of diagonal k of both families. */
  method DiagonalCells(b: Board, k: nat) returns (d1: seq<LineCell>, d2: seq<LineCell>)
    requires IsSquare(b)
    ensures d1 == Diag1(b, k) && d2 == Diag2(b, k)
  {
    var size := |b|;
    d1 := [];
    d2 := [];
    for c := 0 to k + 1
      invariant d1 == Diag1Upto(b, k, c) && d2 == Diag2Upto(b, k, c)
    {
      var r := k - c;
      DiagUptoStep(b, k, c);
      if r < size && c < size {
        d1 := d1 + [LineCell(b[r][c].owner, r, c)];
        d2 := d2 + [LineCell(b[r][size - 1 - c].owner, r, size - 1 - c)];
      }
    }
  }

  lemma OwnersSnoc(t: seq<LineCell>, x: LineCell)
    ensures Owners(t + [x]) == Owners(t) + [x.owner]
  {
    assert forall i :: 0 <= i < |t| ==> (t + [x])[i] == t[i];
  }

  /** The inner loop of calculateScores: the owners along diagonal k of both families. */
  method DiagonalOwners(b: Board, k: nat) returns (d1: seq<Option<Player>>, d2: seq<Option<Player>>)
    requires IsSquare(b)
    ensures d1 == Owners(Diag1(b, k)) && d2 == Owners(Diag2(b, k))
  {
    var size := |b|;
    d1 := [];
    d2 := [];
    for j := 0 to k + 1
      invariant d1 == Owners(Diag1Upto(b, k, j)) && d2 == Owners(Diag2Upto(b, k, j))
    {
      var i := k - j;
      ghost var cur1, cur2 := Diag1Upto(b, k, j), Diag2Upto(b, k, j);
      if i < size && j < size {
        assert |b[i]| == size;
        OwnersSnoc(cur1, LineCell(b[i][j].owner, i, j));
        OwnersSnoc(cur2, LineCell(b[i][size - 1 - j].owner, i, size - 1 - j));
        d1 := d1 + [b[i][j].owner];
        d2 := d2 + [b[i][size - 1 - j].owner];
      }
      assert Diag1Upto(b, k, j + 1) == if i < size && j < size then cur1 + [LineCell(b[i][j].owner, i, j)] else cur1;
      assert Diag2Upto(b, k, j + 1)
        == if i < size && j < size then cur2 + [LineCell(b[i][size - 1 - j].owner, i, size - 1 - j)] else cur2;
    }
  }

  lemma PointsOverSingle(t: seq<LineCell>, p: Player)
    ensures PointsOver([t], p) == LineScores(Owners(t)).Get(p)
  {
    var ts := [t];
    assert ts[..|ts| - 1] == [];
    assert ts[|ts| - 1] == t;
  }

  lemma ScoresOfSingle(t: seq<LineCell>)
    ensures ScoresOf([t]) == ZeroScores.Add(LineScores(Owners(t)))
  {
    PointsOverSingle(t, Rouge);
    PointsOverSingle(t, Bleu);
    PointsOverSingle(t, Vert);
  }

  /** One step of the diagonal loop of findWinningLines: the streaks of diagonal k of both families. */
  method DiagonalStreaks(b: Board, k: nat) returns (found: seq<WinningLine>)
    requires IsSquare(b)
    ensures found == LinesOf(DiagPair(b, k))
  {
    var d1, d2 := DiagonalCells(b, k);
    found := [];
    ghost var done: seq<seq<LineCell>> := [];
    if |d1| >= 3 {
      var f := FindLineStreaks(d1);
      LinesOfSnoc(done, d1);
      found := found + f;
      done := [d1];
    }
    if |d2| >= 3 {
      var f := FindLineStreaks(d2);
      LinesOfSnoc(done, d2);
      found := found + f;
      done := done + [d2];
    }
  }

  /** The row loop of findWinningLines. */
  method RowStreaks(b: Board) returns (lines: seq<WinningLine>)
    ensures lines == LinesOf(Rows(b))
  {
    lines := [];
    for r := 0 to |b|
      invariant lines == LinesOf(RowsUpto(b, r))
    {
      var row := seq(|b[r]|, c requires 0 <= c < |b[r]| => LineCell(b[r][c].owner, r, c));
      var found := FindLineStreaks(row);
      LinesOfSnoc(RowsUpto(b, r), row);
      lines := lines + found;
    }
  }

  /** The column loop of findWinningLines. */
  method ColumnStreaks(b: Board) returns (lines: seq<WinningLine>)
    requires IsSquare(b)
    ensures lines == LinesOf(Cols(b))
  {
    var size := |b|;
    lines := [];
    for c := 0 to size
      invariant lines == LinesOf(ColsUpto(b, c))
    {
      var col := seq(size, r requires 0 <= r < size => LineCell(b[r][c].owner, r, c));
      var found := FindLineStreaks(col);
      LinesOfSnoc(ColsUpto(b, c), col);
      lines := lines + found;
    }
  }

  /** The diagonal loop of findWinningLines over k = 0 .. 2 * size - 2. */
  method DiagonalStreaksAll(b: Board) returns (lines: seq<WinningLine>)
    requires IsSquare(b) && |b| > 0
    ensures lines == LinesOf(DiagTraversals(b, DiagCount(b)))
  {
    var size := |b|;
    lines := [];
    for k := 0 to size * 2 - 1
      invariant lines == LinesOf(DiagTraversals(b, k))
    {
      var found := DiagonalStreaks(b, k);
      assert DiagTraversals(b, k + 1) == DiagTraversals(b, k) + DiagPair(b, k);
      LinesOfAppend(DiagTraversals(b, k), DiagPair(b, k));
      lines := lines + found;
    }
    assert DiagCount(b) == size * 2 - 1;
  }

  /** findWinningLines: rows, columns, then both diagonal families, pushing the streaks of each. */
  method FindWinningLines(b: Board) returns (allLines: seq<WinningLine>)
    requires IsSquare(b)
    ensures allLines == WinningLines(b)
  {
    if |b| == 0 {
      return [];
    }
    var rowLines := RowStreaks(b);
    var colLines := ColumnStreaks(b);
    var diagLines := DiagonalStreaksAll(b);
    allLines := rowLines + colLines + diagLines;
    LinesOfAppend(Rows(b) + Cols(b), DiagTraversals(b, DiagCount(b)));
    LinesOfAppend(Rows(b), Cols(b));
  }

  /** ScoresOf over the kept diagonals of one index, one family at a time. */
  lemma KeptScores(e1: seq<LineCell>, e2: seq<LineCell>)
    ensures ScoresOf(Kept(e1, e2))
      == (if |e1| >= 3 then LineScores(Owners(e1)) else ZeroScores).Add(if |e2| >= 3 then LineScores(Owners(e2)) else ZeroScores)
  {
    var withD1: seq<seq<LineCell>> := if |e1| >= 3 then [e1] else [];
    if |e1| >= 3 {
      ScoresOfSingle(e1);
    }
    if |e2| >= 3 {
      ScoresOfSnoc(withD1, e2);
    }
  }

  /** One step of the diagonal loop of calculateScores: scoreLine of diagonal k of both families. */
  method DiagonalScores(b: Board, k: nat) returns (s: Scores)
    requires IsSquare(b)
    ensures s == ScoresOf(DiagPair(b, k))
  {
    var d1, d2 := DiagonalOwners(b, k);
    ghost var e1, e2 := Diag1(b, k), Diag2(b, k);
    KeptScores(e1, e2);
    var s1, s2 := ZeroScores, ZeroScores;
    if |d1| >= 3 {
      s1 := ScoreLine(d1);
    }
    if |d2| >= 3 {
      s2 := ScoreLine(d2);
    }
    assert s1 == (if |e1| >= 3 then LineScores(Owners(e1)) else ZeroScores);
    assert s2 == (if |e2| >= 3 then LineScores(Owners(e2)) else ZeroScores);
    s := s1.Add(s2);
  }

  /** The row loop of calculateScores. */
  method RowScores(b: Board) returns (totals: Scores)
    ensures totals == ScoresOf(Rows(b))
  {
    totals := ZeroScores;
    for r := 0 to |b|
      invariant totals == ScoresOf(RowsUpto(b, r))
    {
      var row := seq(|b[r]|, c requires 0 <= c < |b[r]| => b[r][c].owner);
      assert row == Owners(RowLine(b, r));
      var lineScores := ScoreLine(row);
      ScoresOfSnoc(RowsUpto(b, r), RowLine(b, r));
      totals := totals.Add(lineScores);
    }
  }

  /** The column loop of calculateScores. */
  method ColumnScores(b: Board) returns (totals: Scores)
    requires IsSquare(b)
    ensures totals == ScoresOf(Cols(b))
  {
    var size := |b|;
    totals := ZeroScores;
    for c := 0 to size
      invariant totals == ScoresOf(ColsUpto(b, c))
    {
      var col := seq(size, r requires 0 <= r < size => b[r][c].owner);
      assert col == Owners(ColLine(b, c));
      var lineScores := ScoreLine(col);
      ScoresOfSnoc(ColsUpto(b, c), ColLine(b, c));
      totals := totals.Add(lineScores);
    }
  }

  /** The diagonal loop of calculateScores over k = 0 .. 2 * size - 2. */
  method DiagonalScoresAll(b: Board) returns (totals: Scores)
    requires IsSquare(b) && |b| > 0
    ensures totals == ScoresOf(DiagTraversals(b, DiagCount(b)))
  {
    var size := |b|;
    totals := ZeroScores;
    for k := 0 to size * 2 - 1
      invariant totals == ScoresOf(DiagTraversals(b, k))
    {
      var lineScores := DiagonalScores(b, k);
      assert DiagTraversals(b, k + 1) == DiagTraversals(b, k) + DiagPair(b, k);
      ScoresOfAppend(DiagTraversals(b, k), DiagPair(b, k));
      totals := totals.Add(lineScores);
    }
    assert DiagCount(b) == size * 2 - 1;
  }

  /** calculateScores: the same traversals, adding scoreLine of each into the totals. */
  method CalculateScores(b: Board) returns (totalScores: Scores)
    requires IsSquare(b)
    ensures totalScores == BoardScores(b)
  {
    totalScores := ZeroScores;
    if |b| == 0 {
      return;
    }
    var rowScores := RowScores(b);
    var colScores := ColumnScores(b);
    var diagScores := DiagonalScoresAll(b);
    totalScores := totalScores.Add(rowScores).Add(colScores).Add(diagScores);
    ScoresOfAppend(Rows(b) + Cols(b), DiagTraversals(b, DiagCount(b)));
    ScoresOfAppend(Rows(b), Cols(b));
  }

  lemma {:induction false} ScoresOfLines(ts: seq<seq<LineCell>>, p: Player)
    ensures ScoresOf(ts).Get(p) == LinePoints(LinesOf(ts), p)
    decreases |ts|
  {
    if ts != [] {
      var init, t := ts[..|ts| - 1], ts[|ts| - 1];
      ScoresOfLines(init, p);
      LinePointsAppend(LinesOf(init), StreakLines(t), p);
      StreakLinesPoints(t, p);
    }
  }

  /** Absolute scoring equals the sum of POINTS_MAP[min(|coords|, 5)] over p's winning lines. */
  lemma ScoresMatchLines(b: Board, p: Player)
    requires IsSquare(b)
    ensures BoardScores(b).Get(p) == LinePoints(WinningLines(b), p)
  {
    ScoresOfLines(Traversals(b), p);
  }

  lemma {:induction false} LinesOfLong(ts: seq<seq<LineCell>>)
    ensures forall l :: l in LinesOf(ts) ==> |l.coords| >= 3
  {
    if ts != [] {
      LinesOfLong(ts[..|ts| - 1]);
      StreakLinesShape(ts[|ts| - 1]);
    }
  }

  /** Every line findWinningLines reports has at least three cells. */
  lemma WinningLinesLong(b: Board)
    requires IsSquare(b)
    ensures forall l :: l in WinningLines(b) ==> |l.coords| >= 3
  {
    LinesOfLong(Traversals(b));
  }

  /** The empty board has no lines and no points. */
  lemma EmptyBoard()
    ensures WinningLines([]) == [] && BoardScores([]) == ZeroScores
  {
    assert Traversals([]) == [];
  }
}
