/** Board generation (generateBoard in utils.ts). */
module BoardGen {
  import opened Types
  import opened Constants

  function Max(a: int, b: int): int {
    if a >= b then a else b
  }

  /** The factor ranges of a game: the level's, with both minima raised to 4 for three players. */
  function EffectiveRanges(level: Level, numPlayers: int): (rs: (Range, Range)) {
    var cfg := LevelConfigOf(level);
    if numPlayers == 3 then
      (Range(Max(cfg.attackerRange.min, 4), cfg.attackerRange.max), Range(Max(cfg.defenderRange.min, 4), cfg.defenderRange.max))
    else (cfg.attackerRange, cfg.defenderRange)
  }

  /** With three players each minimum becomes exactly max(min, 4): the ranges keep their factors of at least 4 and drop the rest. Otherwise they are the level's. */
  lemma EffectiveRangesShape(level: Level, numPlayers: int)
    ensures var (a, d) := EffectiveRanges(level, numPlayers);
      var cfg := LevelConfigOf(level);
      a.max == cfg.attackerRange.max && d.max == cfg.defenderRange.max &&
      cfg.attackerRange.min <= a.min <= a.max && cfg.defenderRange.min <= d.min <= d.max &&
      1 <= a.min && 1 <= d.min &&
      (numPlayers == 3 ==> a.min == Max(cfg.attackerRange.min, 4) && d.min == Max(cfg.defenderRange.min, 4)) &&
      (numPlayers != 3 ==> a == cfg.attackerRange && d == cfg.defenderRange) &&
      (forall x :: a.Contains(x) <==> cfg.attackerRange.Contains(x) && (numPlayers == 3 ==> x >= 4)) &&
      (forall x :: d.Contains(x) <==> cfg.defenderRange.Contains(x) && (numPlayers == 3 ==> x >= 4))
  {
  }

  /** With three players the defender range really is narrower: its minimum goes from 1 to 4. */
  lemma ThreePlayersNarrowDefender(level: Level)
    ensures EffectiveRanges(level, 3).1.min == 4 > LevelConfigOf(level).defenderRange.min
  {
  }

  /** The number of integers in a range. */
  function Width(r: Range): nat {
    if r.max >= r.min then r.max - r.min + 1 else 0
  }

  /** The inner loop: i * j for the first n values j of d. */
  function RowProducts(i: int, d: Range, n: nat): (ps: seq<int>)
    ensures |ps| == n
  {
    if n == 0 then [] else RowProducts(i, d, n - 1) + [i * (d.min + n - 1)]
  }

  /** Both loops: the rows for the first n values i of a. */
  function ProductsUpto(a: Range, d: Range, n: nat): seq<int> {
    if n == 0 then [] else ProductsUpto(a, d, n - 1) + RowProducts(a.min + n - 1, d, Width(d))
  }

  /** `products`: every i * j in attacker-major order, duplicates included. */
  function Products(a: Range, d: Range): seq<int> {
    ProductsUpto(a, d, Width(a))
  }

  /** x is i * j for some j of d. */
  ghost predicate InRow(i: int, d: Range, x: int) {
    exists j :: d.Contains(j) && x == i * j
  }

  /** x is i * j for some i of a and j of d. */
  ghost predicate IsProductOf(a: Range, d: Range, x: int) {
    exists i :: a.Contains(i) && InRow(i, d, x)
  }

  lemma {:induction false} RowProductsMember(i: int, d: Range, n: nat, x: int)
    ensures x in RowProducts(i, d, n) <==> exists j :: Range(d.min, d.min + n - 1).Contains(j) && x == i * j
  {
    if n > 0 {
      RowProductsMember(i, d, n - 1, x);
      var last := d.min + n - 1;
      if x == i * last {
        assert Range(d.min, d.min + n - 1).Contains(last);
      }
      if exists j :: Range(d.min, d.min + n - 1).Contains(j) && x == i * j {
        var j :| Range(d.min, d.min + n - 1).Contains(j) && x == i * j;
        if j != last {
          assert Range(d.min, d.min + (n - 1) - 1).Contains(j);
        }
      }
    }
  }

  /** One pass of the inner loop yields exactly the multiples of i by a factor of d. */
  lemma RowMember(i: int, d: Range, x: int)
    ensures x in RowProducts(i, d, Width(d)) <==> InRow(i, d, x)
  {
    RowProductsMember(i, d, Width(d), x);
    var whole := Range(d.min, d.min + Width(d) - 1);
    assert forall j :: whole.Contains(j) <==> d.Contains(j);
  }

  lemma {:induction false} ProductsUptoMember(a: Range, d: Range, n: nat, x: int)
    ensures x in ProductsUpto(a, d, n) <==> exists i :: Range(a.min, a.min + n - 1).Contains(i) && InRow(i, d, x)
  {
    if n > 0 {
      ProductsUptoMember(a, d, n - 1, x);
      var last := a.min + n - 1;
      RowMember(last, d, x);
      if InRow(last, d, x) {
        assert Range(a.min, a.min + n - 1).Contains(last);
      }
      if exists i :: Range(a.min, a.min + n - 1).Contains(i) && InRow(i, d, x) {
        var i :| Range(a.min, a.min + n - 1).Contains(i) && InRow(i, d, x);
        if i != last {
          assert Range(a.min, a.min + (n - 1) - 1).Contains(i);
        }
      }
    }
  }

  /** An entry of `products` is exactly a product of a factor of each range. */
  lemma ProductsMember(a: Range, d: Range, x: int)
    ensures x in Products(a, d) <==> IsProductOf(a, d, x)
  {
    ProductsUptoMember(a, d, Width(a), x);
    var whole := Range(a.min, a.min + Width(a) - 1);
    assert forall i :: whole.Contains(i) <==> a.Contains(i);
  }

  predicate NoDup(s: seq<int>) {
    forall i, j :: 0 <= i < j < |s| ==> s[i] != s[j]
  }

  /** `Array.from(new Set(s))`: the first occurrence of each value, in order. */
  function Dedup(s: seq<int>): (u: seq<int>)
    ensures forall x :: x in u <==> x in s
    ensures NoDup(u)
    ensures |u| <= |s|
  {
    if s == [] then []
    else
      var init := Dedup(s[..|s| - 1]);
      assert forall x :: x in s <==> x in s[..|s| - 1] || x == s[|s| - 1] by {
        assert s == s[..|s| - 1] + [s[|s| - 1]];
      }
      if s[|s| - 1] in init then init else init + [s[|s| - 1]]
  }

  /** `uniqueProducts` of a game. */
  function UniqueProducts(level: Level, numPlayers: int): seq<int> {
    var (a, d) := EffectiveRanges(level, numPlayers);
    Dedup(Products(a, d))
  }

  /** `productPool`: the unique products, twice over for three players. */
  function Pool(level: Level, numPlayers: int): seq<int> {
    var u := UniqueProducts(level, numPlayers);
    if numPlayers == 3 then u + u else u
  }

  /** p lists each of 0 .. n-1 once: the order the shuffle puts the pool in. */
  predicate IsPermutation(p: seq<nat>, n: nat) {
    |p| == n && (forall k :: 0 <= k < n ==> p[k] < n) && (forall k, m :: 0 <= k < m < n ==> p[k] != p[m])
  }

  /** The pool rearranged by p. */
  function Shuffled(pool: seq<int>, p: seq<nat>): (s: seq<int>)
    requires IsPermutation(p, |pool|)
    ensures |s| == |pool|
  {
    seq(|p|, k requires 0 <= k < |p| => pool[p[k]])
  }

  /** The values the padding loop pushes: uniqueProducts taken cyclically. */
  function Padding(u: seq<int>, needed: nat): (pad: seq<int>)
    requires |u| > 0
    ensures |pad| == needed
  {
    seq(needed, i requires 0 <= i < needed => u[i % |u|])
  }

  /** The number of cells of a gridSize × gridSize board. */
  function Cells(gridSize: nat): nat {
    gridSize * gridSize
  }

  /** `slice(0, cells)` of the shuffled pool, then for three players the padding up to `cells`. */
  function TakeAndPad(shuffled: seq<int>, u: seq<int>, cells: nat, numPlayers: int): seq<int> {
    var taken := if |shuffled| <= cells then shuffled else shuffled[..cells];
    if numPlayers == 3 && |taken| < cells && |u| > 0 then taken + Padding(u, cells - |taken|) else taken
  }

  /** `boardNumbers`: the first gridSize² shuffled values, padded up to gridSize² for three players. */
  function BoardNumbers(level: Level, gridSize: nat, numPlayers: int, perm: seq<nat>): seq<int>
    requires IsPermutation(perm, |Pool(level, numPlayers)|)
  {
    TakeAndPad(Shuffled(Pool(level, numPlayers), perm), UniqueProducts(level, numPlayers), Cells(gridSize), numPlayers)
  }

  /** `boardNumbers[k] || 0`: a missing entry reads as 0. */
  function NumberAt(ns: seq<int>, k: int): int {
    if 0 <= k < |ns| then ns[k] else 0
  }

  /** The board the final loops build from ns: row-major, every cell unowned. */
  function Layout(ns: seq<int>, gridSize: nat): (b: Board)
    ensures |b| == gridSize && forall i :: 0 <= i < gridSize ==> |b[i]| == gridSize
  {
    seq(gridSize, i requires 0 <= i < gridSize =>
      seq(gridSize, j requires 0 <= j < gridSize => Cell(NumberAt(ns, i * gridSize + j), None)))
  }

  /** What generateBoard returns when the shuffle orders the pool by perm. */
  function GeneratedBoard(level: Level, gridSize: nat, numPlayers: int, perm: seq<nat>): Board
    requires IsPermutation(perm, |Pool(level, numPlayers)|)
  {
    Layout(BoardNumbers(level, gridSize, numPlayers, perm), gridSize)
  }

  /** The two loops that fill `products`. */
  method ComputeProducts(a: Range, d: Range) returns (products: seq<int>)
    ensures products == Products(a, d)
  {
    products := [];
    var i := a.min;
    while i <= a.max
      invariant a.min <= i <= a.min + Width(a)
      invariant products == ProductsUpto(a, d, i - a.min)
    {
      ghost var done := products;
      var j := d.min;
      while j <= d.max
        invariant d.min <= j <= d.min + Width(d)
        invariant products == done + RowProducts(i, d, j - d.min)
      {
        products := products + [i * j];
        j := j + 1;
      }
      i := i + 1;
    }
  }

  /** The padding loop: uniqueProducts pushed cyclically until boardNumbers has `cells` entries. */
  method PadNumbers(taken: seq<int>, uniqueProducts: seq<int>, cells: nat) returns (boardNumbers: seq<int>)
    requires |taken| < cells && |uniqueProducts| > 0
    ensures boardNumbers == taken + Padding(uniqueProducts, cells - |taken|)
  {
    boardNumbers := taken;
    var needed := cells - |taken|;
    for i := 0 to needed
      invariant boardNumbers == taken + Padding(uniqueProducts, i)
    {
      boardNumbers := boardNumbers + [uniqueProducts[i % |uniqueProducts|]];
    }
  }

  /** The final loops: gridSize rows of gridSize unowned cells numbered row-major from boardNumbers. */
  method LayOut(boardNumbers: seq<int>, gridSize: nat) returns (board: Board)
    ensures board == Layout(boardNumbers, gridSize)
  {
    board := [];
    for i := 0 to gridSize
      invariant |board| == i
      invariant forall i' :: 0 <= i' < i ==> board[i'] == Layout(boardNumbers, gridSize)[i']
    {
      var row: seq<Cell> := [];
      for j := 0 to gridSize
        invariant |row| == j
        invariant forall j' :: 0 <= j' < j ==> row[j'] == Cell(NumberAt(boardNumbers, i * gridSize + j'), None)
      {
        row := row + [Cell(NumberAt(boardNumbers, i * gridSize + j), None)];
      }
      board := board + [row];
    }
  }

  /** From uniqueProducts to boardNumbers: pool, shuffle, slice and padding. */
  method ArrangeNumbers(uniqueProducts: seq<int>, numPlayers: int, perm: seq<nat>, cells: nat) returns (boardNumbers: seq<int>)
    requires IsPermutation(perm, if numPlayers == 3 then 2 * |uniqueProducts| else |uniqueProducts|)
    ensures boardNumbers == TakeAndPad(Shuffled(if numPlayers == 3 then uniqueProducts + uniqueProducts else uniqueProducts, perm), uniqueProducts, cells, numPlayers)
  {
    var productPool := if numPlayers == 3 then uniqueProducts + uniqueProducts else uniqueProducts;
    var shuffledProducts := Shuffled(productPool, perm);
    boardNumbers := if |shuffledProducts| <= cells then shuffledProducts else shuffledProducts[..cells];
    if numPlayers == 3 && |boardNumbers| < cells && |uniqueProducts| > 0 {
      boardNumbers := PadNumbers(boardNumbers, uniqueProducts, cells);
    }
  }

  /** generateBoard, with the shuffle's random order supplied as perm. */
  method GenerateBoard(level: Level, gridSize: nat, numPlayers: int, perm: seq<nat>) returns (board: Board)
    requires IsPermutation(perm, |Pool(level, numPlayers)|)
    ensures board == GeneratedBoard(level, gridSize, numPlayers, perm)
  {
    var (attackerRange, defenderRange) := EffectiveRanges(level, numPlayers);
    var products := ComputeProducts(attackerRange, defenderRange);
    var uniqueProducts := Dedup(products);
    var boardNumbers := ArrangeNumbers(uniqueProducts, numPlayers, perm, Cells(gridSize));
    board := LayOut(boardNumbers, gridSize);
  }

  /** gridSize rows of gridSize cells, none of them owned. */
  lemma GeneratedShape(level: Level, gridSize: nat, numPlayers: int, perm: seq<nat>)
    requires IsPermutation(perm, |Pool(level, numPlayers)|)
    ensures var b := GeneratedBoard(level, gridSize, numPlayers, perm);
      |b| == gridSize && IsSquare(b) && forall i, j :: 0 <= i < gridSize && 0 <= j < gridSize ==> b[i][j].owner == None
  {
  }

  lemma ShuffledMember(pool: seq<int>, p: seq<nat>, k: int)
    requires IsPermutation(p, |pool|) && 0 <= k < |pool|
    ensures Shuffled(pool, p)[k] in pool
  {
    assert Shuffled(pool, p)[k] == pool[p[k]];
  }

  lemma PaddingMember(u: seq<int>, needed: nat, k: int)
    requires |u| > 0 && 0 <= k < needed
    ensures Padding(u, needed)[k] in u
  {
    assert Padding(u, needed)[k] == u[k % |u|];
  }

  /** Every value TakeAndPad puts out comes from the shuffled pool or from u. */
  lemma TakeAndPadMember(sh: seq<int>, u: seq<int>, cells: nat, numPlayers: int, k: int)
    requires 0 <= k < |TakeAndPad(sh, u, cells, numPlayers)|
    ensures var x := TakeAndPad(sh, u, cells, numPlayers)[k]; x in sh || x in u
  {
    var taken := if |sh| <= cells then sh else sh[..cells];
    if k < |taken| {
      assert TakeAndPad(sh, u, cells, numPlayers)[k] == taken[k] == sh[k];
    } else {
      PaddingMember(u, cells - |taken|, k - |taken|);
    }
  }

  /** Every entry of boardNumbers is one of the unique products. */
  lemma NumberFromUniqueProducts(level: Level, gridSize: nat, numPlayers: int, perm: seq<nat>, k: int)
    requires IsPermutation(perm, |Pool(level, numPlayers)|)
    requires 0 <= k < |BoardNumbers(level, gridSize, numPlayers, perm)|
    ensures BoardNumbers(level, gridSize, numPlayers, perm)[k] in UniqueProducts(level, numPlayers)
  {
    var u := UniqueProducts(level, numPlayers);
    var pool := Pool(level, numPlayers);
    var sh := Shuffled(pool, perm);
    TakeAndPadMember(sh, u, Cells(gridSize), numPlayers, k);
    var x := BoardNumbers(level, gridSize, numPlayers, perm)[k];
    if x in sh {
      var m :| 0 <= m < |sh| && sh[m] == x;
      ShuffledMember(pool, perm, m);
    }
  }

  /** Cell (i, j) of the generated board carries boardNumbers[i * gridSize + j], or 0 past its end. */
  lemma CellNumber(level: Level, gridSize: nat, numPlayers: int, perm: seq<nat>, i: nat, j: nat)
    requires IsPermutation(perm, |Pool(level, numPlayers)|)
    requires i < gridSize && j < gridSize
    ensures GeneratedBoard(level, gridSize, numPlayers, perm)[i][j].number ==
      NumberAt(BoardNumbers(level, gridSize, numPlayers, perm), i * gridSize + j)
  {
    LayoutCell(BoardNumbers(level, gridSize, numPlayers, perm), gridSize, i, j);
  }

  lemma LayoutCell(ns: seq<int>, g: nat, i: nat, j: nat)
    requires i < g && j < g
    ensures Layout(ns, g)[i][j] == Cell(NumberAt(ns, i * g + j), None)
  {
  }

  /** Every generated cell number is 0 or i * j for an i of the (raised) attacker range and a j of the (raised) defender range. */
  lemma CellsAreProducts(level: Level, gridSize: nat, numPlayers: int, perm: seq<nat>)
    requires IsPermutation(perm, |Pool(level, numPlayers)|)
    ensures var b := GeneratedBoard(level, gridSize, numPlayers, perm);
      var (a, d) := EffectiveRanges(level, numPlayers);
      forall i, j :: 0 <= i < gridSize && 0 <= j < gridSize ==> b[i][j].number == 0 || IsProductOf(a, d, b[i][j].number)
  {
    var b: Board := GeneratedBoard(level, gridSize, numPlayers, perm);
    var (a, d) := EffectiveRanges(level, numPlayers);
    var ns := BoardNumbers(level, gridSize, numPlayers, perm);
    forall i: int, j: int | 0 <= i < gridSize && 0 <= j < gridSize
      ensures b[i][j].number == 0 || IsProductOf(a, d, b[i][j].number)
    {
      CellNumber(level, gridSize, numPlayers, perm, i, j);
      var k := i * gridSize + j;
      if 0 <= k < |ns| {
        NumberFromUniqueProducts(level, gridSize, numPlayers, perm, k);
        ProductsMember(a, d, ns[k]);
      }
    }
  }

  lemma MulLe(x: nat, y: nat, g: nat)
    requires x <= y
    ensures x * g <= y * g
  {
    assert y * g == x * g + (y - x) * g;
  }

  /** Index i * g + j of row i lies before row i + 1. */
  lemma RowMajorBound(g: nat, i: nat, j: nat)
    requires j < g
    ensures i * g <= i * g + j < (i + 1) * g
  {
    assert (i + 1) * g == i * g + g;
  }

  /** Distinct cells of a g-wide row-major layout have distinct indices. */
  lemma RowMajorInjective(g: nat, i: nat, j: nat, i': nat, j': nat)
    requires j < g && j' < g && i * g + j == i' * g + j'
    ensures i == i' && j == j'
  {
    RowMajorBound(g, i, j);
    RowMajorBound(g, i', j');
    if i < i' {
      MulLe(i + 1, i', g);
    } else if i' < i {
      MulLe(i' + 1, i, g);
    }
  }

  /** A permutation of a duplicate-free pool is duplicate-free. */
  lemma ShuffledNoDup(pool: seq<int>, p: seq<nat>)
    requires IsPermutation(p, |pool|) && NoDup(pool)
    ensures NoDup(Shuffled(pool, p))
  {
    var sh := Shuffled(pool, p);
    forall k, m | 0 <= k < m < |sh| ensures sh[k] != sh[m] {
      assert sh[k] == pool[p[k]] && sh[m] == pool[p[m]];
      assert p[k] != p[m];
      if p[k] < p[m] {
        assert pool[p[k]] != pool[p[m]];
      } else {
        assert pool[p[m]] != pool[p[k]];
      }
    }
  }

  /** A layout of a duplicate-free list puts no nonzero number on two cells. */
  lemma LayoutDistinct(ns: seq<int>, g: nat)
    requires NoDup(ns)
    ensures var b := Layout(ns, g);
      forall i, j, i', j' ::
        (0 <= i < g && 0 <= j < g && 0 <= i' < g && 0 <= j' < g &&
         (i, j) != (i', j') && b[i][j].number != 0) ==> b[i][j].number != b[i'][j'].number
  {
    var b: Board := Layout(ns, g);
    forall i: int, j: int, i': int, j': int | 0 <= i < g && 0 <= j < g && 0 <= i' < g && 0 <= j' < g &&
        (i, j) != (i', j') && b[i][j].number != 0
      ensures b[i][j].number != b[i'][j'].number
    {
      var k, k' := i * g + j, i' * g + j';
      assert b[i][j].number == NumberAt(ns, k) && b[i'][j'].number == NumberAt(ns, k');
      if k == k' {
        RowMajorInjective(g, i, j, i', j');
      }
      if k' < |ns| && k != k' {
        if k < k' { assert ns[k] != ns[k']; } else { assert ns[k'] != ns[k]; }
      }
    }
  }

  /** With two players boardNumbers is a slice of a permutation of the unique products, so it has no duplicates. */
  lemma TwoPlayersNoDup(level: Level, gridSize: nat, numPlayers: int, perm: seq<nat>)
    requires IsPermutation(perm, |Pool(level, numPlayers)|)
    requires numPlayers != 3
    ensures NoDup(BoardNumbers(level, gridSize, numPlayers, perm))
  {
    var pool := Pool(level, numPlayers);
    ShuffledNoDup(pool, perm);
    var sh := Shuffled(pool, perm);
    var ns := BoardNumbers(level, gridSize, numPlayers, perm);
    assert ns == if |sh| <= Cells(gridSize) then sh else sh[..Cells(gridSize)];
  }

  /** With two players no number appears on two cells: besides the zeros of an exhausted pool, the cell numbers are pairwise distinct. */
  lemma TwoPlayersDistinct(level: Level, gridSize: nat, numPlayers: int, perm: seq<nat>)
    requires IsPermutation(perm, |Pool(level, numPlayers)|)
    requires numPlayers != 3
    ensures var b := GeneratedBoard(level, gridSize, numPlayers, perm);
      forall i, j, i', j' ::
        (0 <= i < gridSize && 0 <= j < gridSize && 0 <= i' < gridSize && 0 <= j' < gridSize &&
         (i, j) != (i', j') && b[i][j].number != 0) ==> b[i][j].number != b[i'][j'].number
  {
    TwoPlayersNoDup(level, gridSize, numPlayers, perm);
    LayoutDistinct(BoardNumbers(level, gridSize, numPlayers, perm), gridSize);
  }

  /** The unique products are never empty: the raised ranges still hold a factor each. */
  lemma UniqueProductsNonEmpty(level: Level, numPlayers: int)
    ensures var (a, d) := EffectiveRanges(level, numPlayers);
      a.min * d.min in UniqueProducts(level, numPlayers)
  {
    var (a, d) := EffectiveRanges(level, numPlayers);
    EffectiveRangesShape(level, numPlayers);
    assert a.Contains(a.min) && InRow(a.min, d, a.min * d.min) by {
      assert d.Contains(d.min);
    }
    ProductsMember(a, d, a.min * d.min);
  }

  /** With three players and a non-empty product set, padding makes boardNumbers exactly gridSize² long. */
  lemma ThreePlayersLength(level: Level, gridSize: nat, perm: seq<nat>)
    requires IsPermutation(perm, |Pool(level, 3)|)
    ensures |BoardNumbers(level, gridSize, 3, perm)| == gridSize * gridSize
  {
    UniqueProductsNonEmpty(level, 3);
  }

  /** Every unique product with three players is at least 4 * 4. */
  lemma ThreePlayersProductBound(level: Level, x: int)
    requires x in UniqueProducts(level, 3)
    ensures x >= 16
  {
    var (a, d) := EffectiveRanges(level, 3);
    EffectiveRangesShape(level, 3);
    ProductsMember(a, d, x);
    var i :| a.Contains(i) && InRow(i, d, x);
    var j :| d.Contains(j) && x == i * j;
    MulLe(4, i, j);
  }

  /** A layout of a list of exactly g² values at least lo has every cell at least lo. */
  lemma LayoutFull(ns: seq<int>, g: nat, lo: int)
    requires |ns| == g * g && forall k :: 0 <= k < |ns| ==> ns[k] >= lo
    ensures var b := Layout(ns, g);
      forall i, j :: 0 <= i < g && 0 <= j < g ==> b[i][j].number >= lo
  {
    var b: Board := Layout(ns, g);
    forall i: int, j: int | 0 <= i < g && 0 <= j < g
      ensures b[i][j].number >= lo
    {
      var k := i * g + j;
      assert b[i][j].number == NumberAt(ns, k);
      RowMajorBound(g, i, j);
      MulLe(i + 1, g, g);
    }
  }

  /** With three players every cell of the generated board is filled: its number is at least 16, never 0. */
  lemma ThreePlayersFull(level: Level, gridSize: nat, perm: seq<nat>)
    requires IsPermutation(perm, |Pool(level, 3)|)
    ensures var b := GeneratedBoard(level, gridSize, 3, perm);
      forall i, j :: 0 <= i < gridSize && 0 <= j < gridSize ==> b[i][j].number >= 16
  {
    var ns := BoardNumbers(level, gridSize, 3, perm);
    ThreePlayersLength(level, gridSize, perm);
    forall k | 0 <= k < |ns| ensures ns[k] >= 16 {
      NumberFromUniqueProducts(level, gridSize, 3, perm, k);
      ThreePlayersProductBound(level, ns[k]);
    }
    LayoutFull(ns, gridSize, 16);
  }
}
