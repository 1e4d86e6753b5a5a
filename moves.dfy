/** The move validator (getValidAiMoves in utils.ts). */
module Moves {
  import opened Types

  /** `number % factor === 0` in JavaScript: a factor of 0 gives NaN, which is never 0. */
  predicate Divides(factor: int, number: int) {
    factor != 0 && number % factor == 0
  }

  /** m is a legal answer to attackingFactor: an unowned cell it divides, with the quotient as second factor, inside the defender range. */
  predicate IsValidMove(b: Board, attackingFactor: int, defenderRange: Range, m: AiMove) {
    InBoard(b, m.r, m.c) && b[m.r][m.c].owner == None && Divides(attackingFactor, b[m.r][m.c].number) &&
    m.factor2 == b[m.r][m.c].number / attackingFactor && defenderRange.Contains(m.factor2)
  }

  /** What the visit of cell (r, c) pushes: the move, when the cell admits one. */
  function CellMove(b: Board, r: int, c: int, attackingFactor: int, defenderRange: Range): seq<AiMove>
    requires InBoard(b, r, c)
  {
    var cell := b[r][c];
    if cell.owner == None && Divides(attackingFactor, cell.number) && defenderRange.Contains(cell.number / attackingFactor)
    then [AiMove(r, c, cell.number / attackingFactor)]
    else []
  }

  /** The moves of the first n cells of row r. */
  function RowMoves(b: Board, r: int, attackingFactor: int, defenderRange: Range, n: nat): seq<AiMove>
    requires 0 <= r < |b| && n <= |b[r]|
  {
    if n == 0 then [] else RowMoves(b, r, attackingFactor, defenderRange, n - 1) + CellMove(b, r, n - 1, attackingFactor, defenderRange)
  }

  /** The moves of the first n rows. */
  function MovesUpto(b: Board, attackingFactor: int, defenderRange: Range, n: nat): seq<AiMove>
    requires n <= |b|
  {
    if n == 0 then [] else MovesUpto(b, attackingFactor, defenderRange, n - 1) + RowMoves(b, n - 1, attackingFactor, defenderRange, |b[n - 1]|)
  }

  /** The list getValidAiMoves returns. */
  function ValidMoves(b: Board, attackingFactor: int, defenderRange: Range): seq<AiMove> {
    MovesUpto(b, attackingFactor, defenderRange, |b|)
  }

  /** m1 comes before m2 in row-major order. */
  predicate Before(m1: AiMove, m2: AiMove) {
    m1.r < m2.r || (m1.r == m2.r && m1.c < m2.c)
  }

  /** Strictly increasing in row-major order (so no cell is listed twice). */
  predicate RowMajor(ms: seq<AiMove>) {
    forall k, l :: 0 <= k < l < |ms| ==> Before(ms[k], ms[l])
  }

  /** The two forEach loops. */
  method GetValidAiMoves(b: Board, attackingFactor: int, defenderRange: Range) returns (moves: seq<AiMove>)
    ensures moves == ValidMoves(b, attackingFactor, defenderRange)
  {
    moves := [];
    for r := 0 to |b|
      invariant moves == MovesUpto(b, attackingFactor, defenderRange, r)
    {
      ghost var done := moves;
      for c := 0 to |b[r]|
        invariant moves == done + RowMoves(b, r, attackingFactor, defenderRange, c)
      {
        var cell := b[r][c];
        if cell.owner == None {
          if Divides(attackingFactor, cell.number) {
            var factor2 := cell.number / attackingFactor;
            if factor2 >= defenderRange.min && factor2 <= defenderRange.max {
              moves := moves + [AiMove(r, c, factor2)];
            }
          }
        }
      }
    }
  }

  lemma {:induction false} RowMovesMember(b: Board, r: int, attackingFactor: int, defenderRange: Range, n: nat, m: AiMove)
    requires 0 <= r < |b| && n <= |b[r]|
    ensures m in RowMoves(b, r, attackingFactor, defenderRange, n) <==>
      m.r == r && 0 <= m.c < n && IsValidMove(b, attackingFactor, defenderRange, m)
  {
    if n > 0 {
      RowMovesMember(b, r, attackingFactor, defenderRange, n - 1, m);
    }
  }

  lemma {:induction false} MovesUptoMember(b: Board, attackingFactor: int, defenderRange: Range, n: nat, m: AiMove)
    requires n <= |b|
    ensures m in MovesUpto(b, attackingFactor, defenderRange, n) <==>
      0 <= m.r < n && IsValidMove(b, attackingFactor, defenderRange, m)
  {
    if n > 0 {
      MovesUptoMember(b, attackingFactor, defenderRange, n - 1, m);
      RowMovesMember(b, n - 1, attackingFactor, defenderRange, |b[n - 1]|, m);
    }
  }

  /** Sound and complete: a move is listed exactly when it is valid. */
  lemma ValidMovesMember(b: Board, attackingFactor: int, defenderRange: Range, m: AiMove)
    ensures m in ValidMoves(b, attackingFactor, defenderRange) <==> IsValidMove(b, attackingFactor, defenderRange, m)
  {
    MovesUptoMember(b, attackingFactor, defenderRange, |b|, m);
  }

  /** Every listed move is valid; used where a whole list is needed at once. */
  lemma ValidMovesAllValid(b: Board, attackingFactor: int, defenderRange: Range)
    ensures var ms := ValidMoves(b, attackingFactor, defenderRange);
      forall k :: 0 <= k < |ms| ==> IsValidMove(b, attackingFactor, defenderRange, ms[k])
  {
    var ms := ValidMoves(b, attackingFactor, defenderRange);
    forall k | 0 <= k < |ms| ensures IsValidMove(b, attackingFactor, defenderRange, ms[k]) {
      ValidMovesMember(b, attackingFactor, defenderRange, ms[k]);
    }
  }

  lemma RowMajorAppend(xs: seq<AiMove>, ys: seq<AiMove>)
    requires RowMajor(xs) && RowMajor(ys)
    requires forall k, l :: 0 <= k < |xs| && 0 <= l < |ys| ==> Before(xs[k], ys[l])
    ensures RowMajor(xs + ys)
  {
    var zs := xs + ys;
    forall k, l | 0 <= k < l < |zs| ensures Before(zs[k], zs[l]) {
      if l < |xs| {
        assert zs[k] == xs[k] && zs[l] == xs[l];
      } else if k >= |xs| {
        assert zs[k] == ys[k - |xs|] && zs[l] == ys[l - |xs|];
      } else {
        assert zs[k] == xs[k] && zs[l] == ys[l - |xs|];
      }
    }
  }

  lemma {:induction false} RowMovesOrdered(b: Board, r: int, attackingFactor: int, defenderRange: Range, n: nat)
    requires 0 <= r < |b| && n <= |b[r]|
    ensures RowMajor(RowMoves(b, r, attackingFactor, defenderRange, n))
  {
    if n > 0 {
      var init := RowMoves(b, r, attackingFactor, defenderRange, n - 1);
      var last := CellMove(b, r, n - 1, attackingFactor, defenderRange);
      RowMovesOrdered(b, r, attackingFactor, defenderRange, n - 1);
      forall k | 0 <= k < |init| ensures init[k].r == r && init[k].c < n - 1 {
        RowMovesMember(b, r, attackingFactor, defenderRange, n - 1, init[k]);
      }
      RowMajorAppend(init, last);
    }
  }

  lemma {:induction false} MovesUptoOrdered(b: Board, attackingFactor: int, defenderRange: Range, n: nat)
    requires n <= |b|
    ensures RowMajor(MovesUpto(b, attackingFactor, defenderRange, n))
  {
    if n > 0 {
      var init := MovesUpto(b, attackingFactor, defenderRange, n - 1);
      var row := RowMoves(b, n - 1, attackingFactor, defenderRange, |b[n - 1]|);
      MovesUptoOrdered(b, attackingFactor, defenderRange, n - 1);
      RowMovesOrdered(b, n - 1, attackingFactor, defenderRange, |b[n - 1]|);
      forall k | 0 <= k < |init| ensures init[k].r < n - 1 {
        MovesUptoMember(b, attackingFactor, defenderRange, n - 1, init[k]);
      }
      forall l | 0 <= l < |row| ensures row[l].r == n - 1 {
        RowMovesMember(b, n - 1, attackingFactor, defenderRange, |b[n - 1]|, row[l]);
      }
      RowMajorAppend(init, row);
    }
  }

  /** The list is in row-major order, each cell at most once. */
  lemma ValidMovesOrdered(b: Board, attackingFactor: int, defenderRange: Range)
    ensures RowMajor(ValidMoves(b, attackingFactor, defenderRange))
  {
    MovesUptoOrdered(b, attackingFactor, defenderRange, |b|);
  }
}
