/** The AI policy (aiSelectFactor, aiFindBestMoveLevel1/2/3 and findBestAiMove in utils.ts). */
module Ai {
  import opened Types
  import opened BoardLines
  import opened Moves

  /** aiSelectFactor, with the random index supplied as choice. */
  function AiSelectFactor(availableFactors: seq<int>, choice: nat): (f: int)
    ensures availableFactors == [] ==> f == 0
    ensures availableFactors != [] ==> f in availableFactors
  {
    if |availableFactors| == 0 then 0 else availableFactors[choice % |availableFactors|]
  }

  /** aiFindBestMoveLevel1: a move picked at the random index choice, or none when there is none. */
  function Level1Move(validMoves: seq<AiMove>, choice: nat): (m: Option<AiMove>)
    ensures m.None? <==> validMoves == []
    ensures m.Some? ==> m.value in validMoves
  {
    if |validMoves| == 0 then None else Some(validMoves[choice % |validMoves|])
  }

  /** `.filter(l => l.player === p)`. */
  function PlayerLines(lines: seq<WinningLine>, p: Player): (own: seq<WinningLine>)
    ensures forall l :: l in own <==> l in lines && l.player == p
    ensures |own| <= |lines|
  {
    if lines == [] then []
    else
      var init := PlayerLines(lines[..|lines| - 1], p);
      var last := lines[|lines| - 1];
      assert forall l :: l in lines <==> l in lines[..|lines| - 1] || l == last by {
        assert lines == lines[..|lines| - 1] + [last];
      }
      if last.player == p then init + [last] else init
  }

  /** How many of the board's winning lines belong to p. */
  function LineCount(b: Board, p: Player): nat
    requires IsSquare(b)
  {
    |PlayerLines(WinningLines(b), p)|
  }

  /** Claiming (r, c) for p gives p strictly more winning lines than the board has now. */
  predicate Gains(b: Board, r: int, c: int, p: Player)
    requires IsSquare(b) && InBoard(b, r, c)
  {
    LineCount(SetOwner(b, r, c, p), p) > LineCount(b, p)
  }

  predicate AllInBoard(b: Board, ms: seq<AiMove>) {
    forall k :: 0 <= k < |ms| ==> InBoard(b, ms[k].r, ms[k].c)
  }

  /** For each move of ms, whether claiming its cell gains p a line. */
  function GainFlags(b: Board, ms: seq<AiMove>, p: Player): (g: seq<bool>)
    requires IsSquare(b) && AllInBoard(b, ms)
    ensures |g| == |ms|
  {
    seq(|ms|, k requires 0 <= k < |ms| => Gains(b, ms[k].r, ms[k].c, p))
  }

  /** The first index from start on whose flag is set: the early return of a `for ... of` loop. */
  function FirstTrue(gs: seq<bool>, start: nat): (k: Option<nat>)
    requires start <= |gs|
    ensures k.Some? ==> start <= k.value < |gs| && gs[k.value] && forall l :: start <= l < k.value ==> !gs[l]
    ensures k.None? ==> forall l :: start <= l < |gs| ==> !gs[l]
    decreases |gs| - start
  {
    if start == |gs| then None
    else if gs[start] then Some(start)
    else FirstTrue(gs, start + 1)
  }

  /** The index of the first move that gains p a line, if any. */
  function FirstGain(b: Board, ms: seq<AiMove>, p: Player): (k: Option<nat>)
    requires IsSquare(b) && AllInBoard(b, ms)
    ensures k.Some? ==> k.value < |ms| && Gains(b, ms[k.value].r, ms[k.value].c, p)
    ensures k.Some? ==> forall l :: 0 <= l < k.value ==> !Gains(b, ms[l].r, ms[l].c, p)
    ensures k.None? ==> forall l :: 0 <= l < |ms| ==> !Gains(b, ms[l].r, ms[l].c, p)
  {
    var gs := GainFlags(b, ms, p);
    var k := FirstTrue(gs, 0);
    assert forall l :: 0 <= l < |ms| ==> gs[l] == Gains(b, ms[l].r, ms[l].c, p);
    k
  }

  /** What aiFindBestMoveLevel2 returns: the first move that gains the AI a line, else a random one. */
  function Level2Move(b: Board, validMoves: seq<AiMove>, aiPlayer: Player, choice: nat): (m: Option<AiMove>)
    requires IsSquare(b) && AllInBoard(b, validMoves)
    ensures m.None? <==> validMoves == []
    ensures m.Some? ==> m.value in validMoves
  {
    if |validMoves| == 0 then None
    else match FirstGain(b, validMoves, aiPlayer)
      case Some(k) => Some(validMoves[k])
      case None => Level1Move(validMoves, choice)
  }

  /** What aiFindBestMoveLevel3 returns: the first winning move, else the first block of the human, else a random one. */
  function Level3Move(b: Board, validMoves: seq<AiMove>, aiPlayer: Player, humanPlayer: Player, choice: nat): (m: Option<AiMove>)
    requires IsSquare(b) && AllInBoard(b, validMoves)
    ensures m.None? <==> validMoves == []
    ensures m.Some? ==> m.value in validMoves
  {
    if |validMoves| == 0 then None
    else match FirstGain(b, validMoves, aiPlayer)
      case Some(k) => Some(validMoves[k])
      case None =>
        match FirstGain(b, validMoves, humanPlayer)
        case Some(k) => Some(validMoves[k])
        case None => Level1Move(validMoves, choice)
  }

  /** What findBestAiMove returns: nothing exactly when there is no valid move, and otherwise a valid move. */
  function BestMove(b: Board, attackingFactor: int, defenderRange: Range, aiPlayer: Player, opponents: seq<Player>,
                    difficulty: Difficulty, choice: nat): (m: Option<AiMove>)
    requires IsSquare(b)
    ensures m.None? <==> ValidMoves(b, attackingFactor, defenderRange) == []
    ensures m.Some? ==> IsValidMove(b, attackingFactor, defenderRange, m.value)
  {
    var validMoves := ValidMoves(b, attackingFactor, defenderRange);
    ValidMovesAllValid(b, attackingFactor, defenderRange);
    var m :=
      if |validMoves| == 0 then None
      else if difficulty == 1 then Level1Move(validMoves, choice)
      else if difficulty == 2 then Level2Move(b, validMoves, aiPlayer, choice)
      else if |opponents| == 0 then Level1Move(validMoves, choice)
      else Level3Move(b, validMoves, aiPlayer, opponents[0], choice);
    if m.Some? then ValidMovesMember(b, attackingFactor, defenderRange, m.value); m else m
  }

  /** checkMoveForNewLine: simulate the claim on a copy and compare p's line counts. */
  method CheckMoveForNewLine(b: Board, r: int, c: int, p: Player) returns (gains: bool)
    requires IsSquare(b) && InBoard(b, r, c)
    ensures gains == Gains(b, r, c, p)
  {
    var tempBoard := SetOwner(b, r, c, p);
    var newLines := FindWinningLines(tempBoard);
    var originalLines := FindWinningLines(b);
    gains := |PlayerLines(newLines, p)| > |PlayerLines(originalLines, p)|;
  }

  /** Level 3's checkMove: the same comparison against p's line list computed beforehand. */
  method CheckMove(b: Board, r: int, c: int, p: Player, originalLines: seq<WinningLine>) returns (gains: bool)
    requires IsSquare(b) && InBoard(b, r, c)
    requires originalLines == PlayerLines(WinningLines(b), p)
    ensures gains == Gains(b, r, c, p)
  {
    var tempBoard := SetOwner(b, r, c, p);
    var newLines := FindWinningLines(tempBoard);
    gains := |PlayerLines(newLines, p)| > |originalLines|;
  }

  /** The loop `for (const move of validMoves) if (check(move)) return move;`, falling through with None. */
  method FirstGainingMove(b: Board, validMoves: seq<AiMove>, p: Player, originalLines: seq<WinningLine>) returns (m: Option<AiMove>)
    requires IsSquare(b) && AllInBoard(b, validMoves)
    requires originalLines == PlayerLines(WinningLines(b), p)
    ensures m == match FirstGain(b, validMoves, p) case Some(k) => Some(validMoves[k]) case None => None
  {
    for k := 0 to |validMoves|
      invariant FirstTrue(GainFlags(b, validMoves, p), 0) == FirstTrue(GainFlags(b, validMoves, p), k)
    {
      var gains := CheckMove(b, validMoves[k].r, validMoves[k].c, p, originalLines);
      if gains {
        return Some(validMoves[k]);
      }
    }
    return None;
  }

  /** aiFindBestMoveLevel2, with the fallback's random index supplied as choice. */
  method AiFindBestMoveLevel2(b: Board, validMoves: seq<AiMove>, aiPlayer: Player, choice: nat) returns (m: Option<AiMove>)
    requires IsSquare(b) && AllInBoard(b, validMoves)
    ensures m == Level2Move(b, validMoves, aiPlayer, choice)
  {
    if |validMoves| == 0 {
      return None;
    }
    for k := 0 to |validMoves|
      invariant FirstTrue(GainFlags(b, validMoves, aiPlayer), 0) == FirstTrue(GainFlags(b, validMoves, aiPlayer), k)
    {
      var gains := CheckMoveForNewLine(b, validMoves[k].r, validMoves[k].c, aiPlayer);
      if gains {
        return Some(validMoves[k]);
      }
    }
    return Level1Move(validMoves, choice);
  }

  /** aiFindBestMoveLevel3, with the fallback's random index supplied as choice. */
  method AiFindBestMoveLevel3(b: Board, validMoves: seq<AiMove>, aiPlayer: Player, humanPlayer: Player, choice: nat)
    returns (m: Option<AiMove>)
    requires IsSquare(b) && AllInBoard(b, validMoves)
    ensures m == Level3Move(b, validMoves, aiPlayer, humanPlayer, choice)
  {
    if |validMoves| == 0 {
      return None;
    }
    var allLines := FindWinningLines(b);
    var originalAiLines := PlayerLines(allLines, aiPlayer);
    var allLines' := FindWinningLines(b);
    var originalHumanLines := PlayerLines(allLines', humanPlayer);
    var win := FirstGainingMove(b, validMoves, aiPlayer, originalAiLines);
    if win.Some? {
      return win;
    }
    var block := FirstGainingMove(b, validMoves, humanPlayer,
      if humanPlayer == aiPlayer then originalAiLines else originalHumanLines);
    if block.Some? {
      return block;
    }
    return Level1Move(validMoves, choice);
  }

  /** findBestAiMove: the valid moves, then the difficulty's policy; tier 3 without opponents plays as tier 1. */
  method FindBestAiMove(b: Board, attackingFactor: int, defenderRange: Range, aiPlayer: Player, opponents: seq<Player>,
                        difficulty: Difficulty, choice: nat) returns (m: Option<AiMove>)
    requires IsSquare(b)
    ensures m == BestMove(b, attackingFactor, defenderRange, aiPlayer, opponents, difficulty, choice)
  {
    var validMoves := GetValidAiMoves(b, attackingFactor, defenderRange);
    ValidMovesAllValid(b, attackingFactor, defenderRange);
    if |validMoves| == 0 {
      return None;
    }
    if difficulty == 1 {
      m := Level1Move(validMoves, choice);
    } else if difficulty == 2 {
      m := AiFindBestMoveLevel2(b, validMoves, aiPlayer, choice);
    } else if |opponents| == 0 {
      m := Level1Move(validMoves, choice);
    } else {
      m := AiFindBestMoveLevel3(b, validMoves, aiPlayer, opponents[0], choice);
    }
  }

  /** k is the first move of ms that gains p a line. */
  predicate FirstGainAt(b: Board, ms: seq<AiMove>, p: Player, k: int)
    requires IsSquare(b) && AllInBoard(b, ms)
  {
    0 <= k < |ms| && Gains(b, ms[k].r, ms[k].c, p) && forall l :: 0 <= l < k ==> !Gains(b, ms[l].r, ms[l].c, p)
  }

  /** No move of ms gains p a line. */
  predicate NoGain(b: Board, ms: seq<AiMove>, p: Player)
    requires IsSquare(b) && AllInBoard(b, ms)
  {
    forall l :: 0 <= l < |ms| ==> !Gains(b, ms[l].r, ms[l].c, p)
  }

  lemma FirstGainIs(b: Board, ms: seq<AiMove>, p: Player, k: int)
    requires IsSquare(b) && AllInBoard(b, ms) && FirstGainAt(b, ms, p, k)
    ensures FirstGain(b, ms, p) == Some(k)
  {
  }

  lemma NoGainIs(b: Board, ms: seq<AiMove>, p: Player)
    requires IsSquare(b) && AllInBoard(b, ms) && NoGain(b, ms, p)
    ensures FirstGain(b, ms, p) == None
  {
  }

  /** Tier 2 plays the first move that gains the AI a line, and the random pick when none does. */
  lemma Level2Choice(b: Board, ms: seq<AiMove>, aiPlayer: Player, choice: nat)
    requires IsSquare(b) && AllInBoard(b, ms)
    ensures forall k :: FirstGainAt(b, ms, aiPlayer, k) ==> Level2Move(b, ms, aiPlayer, choice) == Some(ms[k])
    ensures NoGain(b, ms, aiPlayer) ==> Level2Move(b, ms, aiPlayer, choice) == Level1Move(ms, choice)
  {
    forall k | FirstGainAt(b, ms, aiPlayer, k) ensures Level2Move(b, ms, aiPlayer, choice) == Some(ms[k]) {
      FirstGainIs(b, ms, aiPlayer, k);
    }
  }

  /** Tier 3 plays the first winning move, else the first move that blocks the human, else the random pick. */
  lemma Level3Choice(b: Board, ms: seq<AiMove>, aiPlayer: Player, humanPlayer: Player, choice: nat)
    requires IsSquare(b) && AllInBoard(b, ms)
    ensures forall k :: FirstGainAt(b, ms, aiPlayer, k) ==> Level3Move(b, ms, aiPlayer, humanPlayer, choice) == Some(ms[k])
    ensures NoGain(b, ms, aiPlayer) ==>
      (forall k :: FirstGainAt(b, ms, humanPlayer, k) ==> Level3Move(b, ms, aiPlayer, humanPlayer, choice) == Some(ms[k])) &&
      (NoGain(b, ms, humanPlayer) ==> Level3Move(b, ms, aiPlayer, humanPlayer, choice) == Level1Move(ms, choice))
  {
    forall k | FirstGainAt(b, ms, aiPlayer, k) ensures Level3Move(b, ms, aiPlayer, humanPlayer, choice) == Some(ms[k]) {
      FirstGainIs(b, ms, aiPlayer, k);
    }
    if NoGain(b, ms, aiPlayer) {
      NoGainIs(b, ms, aiPlayer);
      if NoGain(b, ms, humanPlayer) {
        NoGainIs(b, ms, humanPlayer);
      }
      forall k | FirstGainAt(b, ms, humanPlayer, k) ensures Level3Move(b, ms, aiPlayer, humanPlayer, choice) == Some(ms[k]) {
        FirstGainIs(b, ms, humanPlayer, k);
      }
    }
  }

  /** findBestAiMove over the valid moves in row-major order: tier 1, and tier 3 with nobody to block, play the random pick;
      tiers 2 and 3 play as Level2Choice and Level3Choice say. */
  lemma BestMoveTiers(b: Board, attackingFactor: int, defenderRange: Range, aiPlayer: Player, opponents: seq<Player>,
                      difficulty: Difficulty, choice: nat)
    requires IsSquare(b)
    ensures var ms := ValidMoves(b, attackingFactor, defenderRange);
      var m := BestMove(b, attackingFactor, defenderRange, aiPlayer, opponents, difficulty, choice);
      AllInBoard(b, ms) &&
      (difficulty == 1 || (difficulty == 3 && opponents == []) ==> m == Level1Move(ms, choice)) &&
      (difficulty == 2 ==> m == Level2Move(b, ms, aiPlayer, choice)) &&
      (difficulty == 3 && opponents != [] ==> m == Level3Move(b, ms, aiPlayer, opponents[0], choice))
  {
    ValidMovesAllValid(b, attackingFactor, defenderRange);
  }
}
