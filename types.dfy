/** Entities of the game (types.ts). */
module Types {

  /** The conventional optional value; `None` plays the role of `null`. */
  datatype Option<+T> = None | Some(value: T)

  /** The three colours a player can take. */
  datatype Player = Rouge | Bleu | Vert

  /** A board cell: the number to factor and who has claimed it. */
  datatype Cell = Cell(number: int, owner: Option<Player>)

  /** The board, row by row. */
  type Board = seq<seq<Cell>>

  datatype Coord = Coord(r: int, c: int)

  /** A maximal same-owner streak of length at least 3, with its cells in order. */
  datatype WinningLine = WinningLine(player: Player, coords: seq<Coord>)

  /** A move for the defender: the cell and the second factor. */
  datatype AiMove = AiMove(r: int, c: int, factor2: int)

  /** One entry of the move log. */
  datatype Move = Move(player: Player, number: int, factor1: int, factor2: int)

  datatype GameState = Setup | Playing | GameOver

  /** Levels are exactly 1, 2 and 3. */
  type Level = l: int | 1 <= l <= 3 witness 1

  /** AI difficulty tiers are exactly 1, 2 and 3. */
  type Difficulty = d: int | 1 <= d <= 3 witness 1

  datatype PlayerConfig = PlayerConfig(isAi: bool, difficulty: Difficulty)

  /** A closed integer interval `min..max`. */
  datatype Range = Range(min: int, max: int) {
    predicate Contains(x: int) { min <= x <= max }
  }

  /** Totals for the three players. */
  datatype Scores = Scores(rouge: int, bleu: int, vert: int) {
    function Get(p: Player): int {
      match p
      case Rouge => rouge
      case Bleu => bleu
      case Vert => vert
    }

    function Set(p: Player, v: int): (s: Scores)
      ensures s.Get(p) == v
      ensures forall q :: q != p ==> s.Get(q) == Get(q)
    {
      match p
      case Rouge => this.(rouge := v)
      case Bleu => this.(bleu := v)
      case Vert => this.(vert := v)
    }

    function Add(other: Scores): Scores {
      Scores(rouge + other.rouge, bleu + other.bleu, vert + other.vert)
    }
  }

  const ZeroScores := Scores(0, 0, 0)

  /** Two totals are equal when they agree for every player. */
  lemma ScoresEq(s: Scores, t: Scores)
    requires forall p :: s.Get(p) == t.Get(p)
    ensures s == t
  {
    assert s.Get(Rouge) == t.Get(Rouge) && s.Get(Bleu) == t.Get(Bleu) && s.Get(Vert) == t.Get(Vert);
  }

  /** (r, c) is a cell of b. */
  predicate InBoard(b: Board, r: int, c: int) {
    0 <= r < |b| && 0 <= c < |b[r]|
  }

  /** `size` rows of `size` cells each. */
  predicate IsSquare(b: Board) {
    forall r :: 0 <= r < |b| ==> |b[r]| == |b|
  }

  /** The board with cell (r, c) claimed by p and nothing else changed (the deep copy followed by `owner = p`). */
  function SetOwner(b: Board, r: int, c: int, p: Player): (b': Board)
    requires InBoard(b, r, c)
    ensures |b'| == |b| && (forall i :: 0 <= i < |b| ==> |b'[i]| == |b[i]|)
    ensures b'[r][c] == Cell(b[r][c].number, Some(p))
    ensures forall i, j :: InBoard(b, i, j) && (i, j) != (r, c) ==> b'[i][j] == b[i][j]
  {
    b[r := b[r][c := Cell(b[r][c].number, Some(p))]]
  }
}
