/** The rules part of the game session (App.tsx): live factors, roles, turns and answers. */
module Game {
  import opened Types
  import opened Constants
  import opened BoardGen
  import opened BoardLines
  import opened Moves
  import opened Ai
  import opened LineKeys

  /** setupRoles's index arithmetic: the attacker and the defender of turn playerIndex. */
  function RolesFor(players: seq<Player>, playerIndex: nat): (Player, Player)
    requires |players| > 0
  {
    (players[playerIndex % |players|], players[(playerIndex + 1) % |players|])
  }

  predicate Distinct(players: seq<Player>) {
    forall k, l :: 0 <= k < l < |players| ==> players[k] != players[l]
  }

  /** Division and remainder are determined by any q, r with x == q * n + r and 0 <= r < n. */
  lemma DivModUnique(x: int, n: int, q: int, r: int)
    requires n > 0 && 0 <= r < n && x == q * n + r
    ensures x / n == q && x % n == r
  {
    var q', r' := x / n, x % n;
    assert x == q' * n + r';
    if q > q' {
      assert (q - q') * n == q * n - q' * n;
      MulLe(1, q - q', n);
    } else if q < q' {
      assert (q' - q) * n == q' * n - q * n;
      MulLe(1, q' - q, n);
    }
  }

  lemma ModNext(i: nat, n: nat)
    requires n >= 2
    ensures (i + 1) % n == if i % n == n - 1 then 0 else i % n + 1
  {
    var q, r := i / n, i % n;
    assert i == q * n + r;
    assert (q + 1) * n == q * n + n;
    if r == n - 1 {
      DivModUnique(i + 1, n, q + 1, 0);
    } else {
      DivModUnique(i + 1, n, q, r + 1);
    }
  }

  /** With at least two distinct players nobody attacks themself. */
  lemma RolesDiffer(players: seq<Player>, playerIndex: nat)
    requires |players| >= 2 && Distinct(players)
    ensures RolesFor(players, playerIndex).0 != RolesFor(players, playerIndex).1
  {
    ModNext(playerIndex, |players|);
    var k, l := playerIndex % |players|, (playerIndex + 1) % |players|;
    if k < l { assert players[k] != players[l]; } else { assert players[l] != players[k]; }
  }

  /** The defender of one turn is the attacker of the next. */
  lemma RolesRotate(players: seq<Player>, playerIndex: nat)
    requires |players| > 0
    ensures RolesFor(players, playerIndex + 1).0 == RolesFor(players, playerIndex).1
  {
  }

  /** Adding n to an index does not change it modulo n. */
  lemma ModPeriodic(i: int, n: int)
    requires n > 0
    ensures (i + n) % n == i % n
  {
    var q, r := i / n, i % n;
    assert i == q * n + r;
    assert (q + 1) * n == q * n + n;
    DivModUnique(i + n, n, q + 1, r);
  }

  /** The roles repeat after one round of |players| turns. */
  lemma RolesPeriodic(players: seq<Player>, playerIndex: nat)
    requires |players| > 0
    ensures RolesFor(players, playerIndex + |players|) == RolesFor(players, playerIndex)
  {
    ModPeriodic(playerIndex, |players|);
    ModPeriodic(playerIndex + 1, |players|);
    assert playerIndex + |players| + 1 == playerIndex + 1 + |players|;
  }

  /** A cell that makes factor f playable: unowned, positive, divisible by f with the quotient in the defender range. */
  predicate PlayableCell(cell: Cell, f: int, defenderRange: Range) {
    cell.owner == None && cell.number > 0 && Divides(f, cell.number) && defenderRange.Contains(cell.number / f)
  }

  ghost predicate Playable(b: Board, f: int, defenderRange: Range) {
    exists r, c :: InBoard(b, r, c) && PlayableCell(b[r][c], f, defenderRange)
  }

  /** `allFactors`: the attacker range, in ascending order. */
  function AllFactors(attackerRange: Range): (fs: seq<int>)
    ensures |fs| == Width(attackerRange)
    ensures forall k :: 0 <= k < |fs| ==> fs[k] == attackerRange.min + k
  {
    seq(Width(attackerRange), k requires 0 <= k < Width(attackerRange) => attackerRange.min + k)
  }

  /** The factors of fs that are playable on b, in the order of fs. */
  ghost function LiveFactors(fs: seq<int>, b: Board, defenderRange: Range): (live: seq<int>)
    ensures forall f :: f in live <==> f in fs && Playable(b, f, defenderRange)
  {
    if fs == [] then []
    else
      var init := LiveFactors(fs[..|fs| - 1], b, defenderRange);
      var f := fs[|fs| - 1];
      assert forall x :: x in fs <==> x in fs[..|fs| - 1] || x == f by {
        assert fs == fs[..|fs| - 1] + [f];
      }
      if Playable(b, f, defenderRange) then init + [f] else init
  }

  predicate Increasing(s: seq<int>) {
    forall k, l :: 0 <= k < l < |s| ==> s[k] < s[l]
  }

  lemma {:induction false} LiveFactorsIncreasing(fs: seq<int>, b: Board, defenderRange: Range)
    requires Increasing(fs)
    ensures Increasing(LiveFactors(fs, b, defenderRange))
  {
    if fs != [] {
      var init, f := fs[..|fs| - 1], fs[|fs| - 1];
      assert Increasing(init) by {
        forall k, l | 0 <= k < l < |init| ensures init[k] < init[l] {
          assert init[k] == fs[k] && init[l] == fs[l];
        }
      }
      LiveFactorsIncreasing(init, b, defenderRange);
      var live := LiveFactors(init, b, defenderRange);
      forall k | 0 <= k < |live| ensures live[k] < f {
        assert live[k] in live;
        var j :| 0 <= j < |init| && init[j] == live[k];
        assert fs[j] == live[k];
      }
    }
  }

  /** availableFactors in the given state. */
  ghost function AvailableFactors(level: Level, state: GameState, b: Board): seq<int> {
    var cfg := LevelConfigOf(level);
    if state != Playing || |b| == 0 then AllFactors(cfg.attackerRange)
    else LiveFactors(AllFactors(cfg.attackerRange), b, cfg.defenderRange)
  }

  /** Outside play, or on an empty board, every attacker factor is offered; otherwise exactly the playable ones; always ascending. */
  lemma AvailableFactorsMember(level: Level, state: GameState, b: Board, f: int)
    ensures var cfg := LevelConfigOf(level);
      (f in AvailableFactors(level, state, b) <==>
        cfg.attackerRange.Contains(f) && (state == Playing && |b| > 0 ==> Playable(b, f, cfg.defenderRange))) &&
      Increasing(AvailableFactors(level, state, b))
  {
    var cfg := LevelConfigOf(level);
    var all := AllFactors(cfg.attackerRange);
    if cfg.attackerRange.Contains(f) {
      assert all[f - cfg.attackerRange.min] == f;
    }
    LiveFactorsIncreasing(all, b, cfg.defenderRange);
  }

  /** The live-factor memo: the loop over the attacker range, then the scan that stops at the first playable cell. */
  method ComputeAvailableFactors(level: Level, state: GameState, board: Board) returns (factors: seq<int>)
    ensures factors == AvailableFactors(level, state, board)
  {
    var cfg := LevelConfigOf(level);
    var attackerRange, defenderRange := cfg.attackerRange, cfg.defenderRange;
    var allFactors := [];
    var i := attackerRange.min;
    while i <= attackerRange.max
      invariant attackerRange.min <= i <= attackerRange.max + 1
      invariant |allFactors| == i - attackerRange.min
      invariant forall k :: 0 <= k < |allFactors| ==> allFactors[k] == attackerRange.min + k
    {
      allFactors := allFactors + [i];
      i := i + 1;
    }
    assert allFactors == AllFactors(attackerRange);
    if state != Playing || |board| == 0 {
      return allFactors;
    }
    var validFactors := [];
    for n := 0 to |allFactors|
      invariant validFactors == LiveFactors(allFactors[..n], board, defenderRange)
    {
      var factor1 := allFactors[n];
      var isFactorPlayable := FactorIsPlayable(board, factor1, defenderRange);
      assert allFactors[..n + 1][..n] == allFactors[..n];
      if isFactorPlayable {
        validFactors := validFactors + [factor1];
      }
    }
    assert allFactors[..|allFactors|] == allFactors;
    return validFactors;
  }

  /** The row and cell loops for one factor, both left by `break` at the first playable cell. */
  method FactorIsPlayable(board: Board, factor1: int, defenderRange: Range) returns (isFactorPlayable: bool)
    ensures isFactorPlayable == Playable(board, factor1, defenderRange)
  {
    isFactorPlayable := false;
    var r := 0;
    while r < |board|
      invariant 0 <= r <= |board|
      invariant forall r', c' :: 0 <= r' < r && 0 <= c' < |board[r']| ==> !PlayableCell(board[r'][c'], factor1, defenderRange)
    {
      var row := board[r];
      var c := 0;
      while c < |row|
        invariant 0 <= c <= |row|
        invariant !isFactorPlayable
        invariant forall c' :: 0 <= c' < c ==> !PlayableCell(row[c'], factor1, defenderRange)
      {
        var cell := row[c];
        if cell.owner == None && cell.number > 0 && Divides(factor1, cell.number) {
          var factor2 := cell.number / factor1;
          if factor2 >= defenderRange.min && factor2 <= defenderRange.max {
            isFactorPlayable := true;
            break;
          }
        }
        c := c + 1;
      }
      if isFactorPlayable {
        assert InBoard(board, r, c) && PlayableCell(board[r][c], factor1, defenderRange);
        break;
      }
      r := r + 1;
    }
  }

  predicate NonNegative(s: Scores) {
    s.rouge >= 0 && s.bleu >= 0 && s.vert >= 0
  }

  /** Every logged move is a correct answer: its two factors multiply to its number. */
  predicate MovesCorrect(ms: seq<Move>) {
    forall k :: 0 <= k < |ms| ==> ms[k].factor1 * ms[k].factor2 == ms[k].number
  }

  /** `board.length > 0 && board.every(row => row.every(cell => cell.owner !== null))`. */
  predicate BoardFull(b: Board) {
    |b| > 0 && forall r :: 0 <= r < |b| ==> forall c :: 0 <= c < |b[r]| ==> b[r][c].owner.Some?
  }

  /** JavaScript truthiness of attackingFactor: null and 0 are both false. */
  predicate FactorSet(f: Option<int>) {
    f.Some? && f.value != 0
  }

  /** The player list handleStartGame chooses. */
  function PlayersFor(num: int): seq<Player> {
    if num == 3 then [Rouge, Bleu, Vert] else [Rouge, Bleu]
  }

  /** `players.filter(p => p !== defender)`. */
  function Others(players: seq<Player>, p: Player): (others: seq<Player>)
    ensures forall q :: q in others <==> q in players && q != p
  {
    if players == [] then []
    else
      var init := Others(players[..|players| - 1], p);
      var last := players[|players| - 1];
      assert forall q :: q in players <==> q in players[..|players| - 1] || q == last by {
        assert players == players[..|players| - 1] + [last];
      }
      if last != p then init + [last] else init
  }

  /** `Record<Player, PlayerConfig>`. */
  datatype PlayerConfigs = PlayerConfigs(rouge: PlayerConfig, bleu: PlayerConfig, vert: PlayerConfig) {
    function Get(p: Player): PlayerConfig {
      match p
      case Rouge => rouge
      case Bleu => bleu
      case Vert => vert
    }

    function Set(p: Player, config: PlayerConfig): (cs: PlayerConfigs)
      ensures cs.Get(p) == config && forall q :: q != p ==> cs.Get(q) == Get(q)
    {
      match p
      case Rouge => this.(rouge := config)
      case Bleu => this.(bleu := config)
      case Vert => this.(vert := config)
    }
  }

  /** Everyone starts human at difficulty 1. */
  const DefaultConfigs := PlayerConfigs(PlayerConfig(false, 1), PlayerConfig(false, 1), PlayerConfig(false, 1))

  /** The rules-relevant state of the session, one field per piece of React state. */
  datatype Session = Session(
    gameState: GameState,
    numPlayers: int,
    players: seq<Player>,
    scores: Scores,
    board: Board,
    gameLevel: Level,
    gridSize: nat,
    moves: seq<Move>,
    winningLines: seq<WinningLine>,
    currentPlayerIndex: nat,
    attacker: Option<Player>,
    defender: Option<Player>,
    attackingFactor: Option<int>,
    selectedCell: Option<Coord>,
    highlightedLines: seq<WinningLine>,
    playerConfigs: PlayerConfigs)

  /** What every transition keeps: one of the two player lists, a square board, no negative score, only correct moves logged, and two distinct roles or none. */
  predicate SessionValid(st: Session) {
    (st.players == [Rouge, Bleu] || st.players == [Rouge, Bleu, Vert]) &&
    IsSquare(st.board) && NonNegative(st.scores) && MovesCorrect(st.moves) &&
    (st.attacker.Some? <==> st.defender.Some?) &&
    (st.attacker.Some? ==> st.attacker.value in st.players && st.defender.value in st.players && st.attacker.value != st.defender.value)
  }

  /** The state before any game. */
  const InitialSession := Session(Setup, 2, [Rouge, Bleu], ZeroScores, [], 1, 5, [], [], 0, None, None, None, None, [], DefaultConfigs)

  lemma InitialValid()
    ensures SessionValid(InitialSession)
  {
  }

  /** The roles for turn playerIndex are two distinct players of the list. */
  lemma RolesValid(players: seq<Player>, playerIndex: nat)
    requires players == [Rouge, Bleu] || players == [Rouge, Bleu, Vert]
    ensures var roles := RolesFor(players, playerIndex);
      roles.0 in players && roles.1 in players && roles.0 != roles.1
  {
    RolesDiffer(players, playerIndex);
  }

  /** handleNewGame. */
  function NewGame(st: Session): Session {
    st.(gameState := Setup, board := [], scores := ZeroScores, moves := [], winningLines := [],
        currentPlayerIndex := 0, attacker := None, defender := None, attackingFactor := None)
  }

  /** A new game is back in setup with an empty board, no moves, zero scores, index 0 and no roles, and keeps the invariant; the selected cell stays. */
  lemma NewGameResets(st: Session)
    requires SessionValid(st)
    ensures var st' := NewGame(st);
      SessionValid(st') && st'.gameState == Setup && st'.board == [] && st'.moves == [] &&
      (forall p :: st'.scores.Get(p) == 0) && st'.currentPlayerIndex == 0 && st'.attacker == None && st'.defender == None &&
      st'.selectedCell == st.selectedCell
  {
  }

  /** handleStartGame: setupRoles(0) runs with the player list of the closure, i.e. the one before the call. */
  function StartGame(st: Session, num: int, level: Level, size: nat, perm: seq<nat>): Session
    requires |st.players| > 0 && IsPermutation(perm, |Pool(level, num)|)
  {
    StartWith(st, num, level, size, GeneratedBoard(level, size, num, perm))
  }

  /** The state handleStartGame sets once the board b is generated. */
  function StartWith(st: Session, num: int, level: Level, size: nat, b: Board): Session
    requires |st.players| > 0
  {
    var roles := RolesFor(st.players, 0);
    st.(players := PlayersFor(num), numPlayers := num, gameLevel := level, gridSize := size,
        board := b, scores := ZeroScores, gameState := Playing,
        attacker := Some(roles.0), defender := Some(roles.1))
  }

  /** Starting a game: the chosen player list, zero scores, play, and Rouge attacking Bleu -- the roles of index 0 in the new list too, so the stale list is harmless; the selected cell and the factor stay as they were. */
  lemma StartGameSetsUp(st: Session, num: int, level: Level, size: nat, perm: seq<nat>)
    requires SessionValid(st) && IsPermutation(perm, |Pool(level, num)|)
    ensures var st' := StartGame(st, num, level, size, perm);
      SessionValid(st') && st'.gameState == Playing && st'.players == PlayersFor(num) &&
      (forall p :: st'.scores.Get(p) == 0) &&
      st'.attacker == Some(Rouge) && st'.defender == Some(Bleu) &&
      (st'.attacker.value, st'.defender.value) == RolesFor(st'.players, 0) &&
      st'.selectedCell == st.selectedCell && st'.attackingFactor == st.attackingFactor
  {
    GeneratedShape(level, size, num, perm);
    StartRoles(st.players);
    StartRoles(PlayersFor(num));
  }

  /** Index 0 of either player list makes Rouge attack Bleu. */
  lemma StartRoles(players: seq<Player>)
    requires players == [Rouge, Bleu] || players == [Rouge, Bleu, Vert]
    ensures RolesFor(players, 0) == (Rouge, Bleu)
  {
    assert 0 % |players| == 0 && 1 % |players| == 1;
  }

  /** nextTurn, given the board its closure sees. */
  function NextTurn(st: Session, b: Board): Session
    requires |st.players| > 0
  {
    var cleared := st.(attackingFactor := None, selectedCell := None, highlightedLines := []);
    if BoardFull(b) then cleared.(gameState := GameOver, attacker := None, defender := None)
    else
      var roles := RolesFor(st.players, st.currentPlayerIndex + 1);
      cleared.(currentPlayerIndex := st.currentPlayerIndex + 1, attacker := Some(roles.0), defender := Some(roles.1))
  }

  /** nextTurn clears the factor, the cell and the highlights; on a full board the game is over with no roles and the same index, otherwise the index advances by one, last turn's defender attacks and the player after it defends. */
  lemma NextTurnSteps(st: Session, b: Board)
    requires SessionValid(st)
    ensures var st' := NextTurn(st, b);
      SessionValid(st') && st'.attackingFactor == None && st'.selectedCell == None && st'.highlightedLines == [] &&
      st'.board == st.board && st'.scores == st.scores && st'.moves == st.moves &&
      (BoardFull(b) ==> st'.gameState == GameOver && st'.attacker == None && st'.defender == None &&
                        st'.currentPlayerIndex == st.currentPlayerIndex) &&
      (!BoardFull(b) ==> st'.gameState == st.gameState && st'.currentPlayerIndex == st.currentPlayerIndex + 1 &&
                         st'.attacker == Some(RolesFor(st.players, st.currentPlayerIndex).1) &&
                         st'.defender == Some(st.players[(st.currentPlayerIndex + 2) % |st.players|]))
  {
    RolesValid(st.players, st.currentPlayerIndex + 1);
    RolesRotate(st.players, st.currentPlayerIndex);
  }

  /** handleSelectFactor: ignored while an AI attacks. */
  function SelectFactor(st: Session, factor: int): Session {
    if st.attacker.Some? && st.playerConfigs.Get(st.attacker.value).isAi then st
    else st.(attackingFactor := Some(factor))
  }

  /** handleCellClick: ignored on an owned cell, without a factor, or while an AI defends. */
  function CellClick(st: Session, r: int, c: int): Session
    requires InBoard(st.board, r, c)
  {
    if st.board[r][c].owner.Some? || !FactorSet(st.attackingFactor) ||
       (st.defender.Some? && st.playerConfigs.Get(st.defender.value).isAi)
    then st
    else st.(selectedCell := Some(Coord(r, c)))
  }

  /** handleSubmitFactor has a cell, a factor and a defender to work with. */
  predicate ReadyToSubmit(st: Session) {
    st.selectedCell.Some? && FactorSet(st.attackingFactor) && st.defender.Some?
  }

  predicate SelectionInBoard(st: Session) {
    st.selectedCell.Some? ==> InBoard(st.board, st.selectedCell.value.r, st.selectedCell.value.c)
  }

  /** The defender's score after answer: +1 + bonus when that total is positive for a correct one, max(0, s - 1) for a wrong one. */
  function AnswerScores(scores: Scores, defender: Player, correct: bool, bonus: int): Scores {
    if correct then
      (if bonus + 1 > 0 then scores.Set(defender, scores.Get(defender) + bonus + 1) else scores)
    else scores.Set(defender, Max(0, scores.Get(defender) - 1))
  }

  /** The lines a claim highlights: the defender's lines on the new board that match no line of the old one by key. */
  function FormedLines(oldBoard: Board, newBoard: Board, defender: Player): seq<WinningLine>
    requires IsSquare(oldBoard) && IsSquare(newBoard)
  {
    WinningLinesLong(oldBoard);
    WinningLinesLong(newBoard);
    NewlyFormedLines(WinningLines(oldBoard), WinningLines(newBoard), defender)
  }

  /** What handleSubmitFactor does before its timer: judge the answer, then claim the cell, log the move, score and highlight, or take a point off. */
  function Answer(st: Session, factor2: int, bonus: (Board, int, int, Player) -> int): Session
    requires IsSquare(st.board) && SelectionInBoard(st)
  {
    if !ReadyToSubmit(st) then st
    else
      var r, c := st.selectedCell.value.r, st.selectedCell.value.c;
      var defender, factor1 := st.defender.value, st.attackingFactor.value;
      var numberToSolve := st.board[r][c].number;
      if factor1 * factor2 == numberToSolve then
        var newBoard := SetOwner(st.board, r, c, defender);
        var points := bonus(newBoard, r, c, defender) + 1;
        st.(board := newBoard,
            moves := st.moves + [Move(defender, numberToSolve, factor1, factor2)],
            winningLines := WinningLines(newBoard),
            scores := AnswerScores(st.scores, defender, true, bonus(newBoard, r, c, defender)),
            highlightedLines := if points > 0 then FormedLines(st.board, newBoard, defender) else st.highlightedLines)
      else
        st.(scores := AnswerScores(st.scores, defender, false, 0))
  }

  /** Only the defender's score moves: up by 1 + bonus (when positive) after a correct answer, to max(0, s - 1) after a wrong one; never below 0. */
  lemma AnswerScoring(scores: Scores, defender: Player, correct: bool, bonus: int)
    requires NonNegative(scores)
    ensures var s' := AnswerScores(scores, defender, correct, bonus);
      NonNegative(s') &&
      (forall q :: q != defender ==> s'.Get(q) == scores.Get(q)) &&
      (correct && bonus + 1 > 0 ==> s'.Get(defender) == scores.Get(defender) + 1 + bonus) &&
      (correct && bonus + 1 <= 0 ==> s' == scores) &&
      (!correct ==> s'.Get(defender) == Max(0, scores.Get(defender) - 1))
  {
    var s' := AnswerScores(scores, defender, correct, bonus);
    assert s'.Get(Rouge) >= 0 && s'.Get(Bleu) >= 0 && s'.Get(Vert) >= 0;
  }

  /** A correct answer changes cell (r, c) alone, to the defender's; appends one move record; wrong answers leave board and log alone. */
  lemma AnswerEffect(st: Session, factor2: int, bonus: (Board, int, int, Player) -> int)
    requires SessionValid(st) && SelectionInBoard(st) && ReadyToSubmit(st)
    ensures var st' := Answer(st, factor2, bonus);
      var r, c := st.selectedCell.value.r, st.selectedCell.value.c;
      var d, f := st.defender.value, st.attackingFactor.value;
      var n := st.board[r][c].number;
      SessionValid(st') &&
      (f * factor2 == n ==>
        st'.board == SetOwner(st.board, r, c, d) && st'.board[r][c].owner == Some(d) &&
        (forall i, j :: InBoard(st.board, i, j) && (i, j) != (r, c) ==> st'.board[i][j] == st.board[i][j]) &&
        st'.moves == st.moves + [Move(d, n, f, factor2)] &&
        st'.winningLines == WinningLines(st'.board)) &&
      (f * factor2 != n ==> st'.board == st.board && st'.moves == st.moves) &&
      st'.gameState == st.gameState && st'.currentPlayerIndex == st.currentPlayerIndex
  {
    var r, c := st.selectedCell.value.r, st.selectedCell.value.c;
    var d, f := st.defender.value, st.attackingFactor.value;
    var st' := Answer(st, factor2, bonus);
    AnswerScoring(st.scores, d, f * factor2 == st.board[r][c].number, bonus(SetOwner(st.board, r, c, d), r, c, d));
    assert IsSquare(st'.board);
    assert MovesCorrect(st'.moves) by {
      forall k | 0 <= k < |st'.moves| ensures st'.moves[k].factor1 * st'.moves[k].factor2 == st'.moves[k].number {
        if k < |st.moves| {
          assert st'.moves[k] == st.moves[k];
        }
      }
    }
  }

  /** The highlighted lines after a scoring correct answer are exactly the defender's new lines that match no line of the old board end for end. */
  lemma AnswerHighlights(st: Session, factor2: int, bonus: (Board, int, int, Player) -> int, l: WinningLine)
    requires IsSquare(st.board) && SelectionInBoard(st) && ReadyToSubmit(st)
    requires var r, c := st.selectedCell.value.r, st.selectedCell.value.c;
      st.attackingFactor.value * factor2 == st.board[r][c].number &&
      bonus(SetOwner(st.board, r, c, st.defender.value), r, c, st.defender.value) + 1 > 0
    ensures var st' := Answer(st, factor2, bonus);
      var oldLines := WinningLines(st.board);
      l in st'.highlightedLines <==>
        l in st'.winningLines && l.player == st.defender.value && |l.coords| > 0 &&
        forall k :: 0 <= k < |oldLines| ==> |oldLines[k].coords| > 0 && !SameEnds(l, oldLines[k])
  {
    var r, c := st.selectedCell.value.r, st.selectedCell.value.c;
    var newBoard := SetOwner(st.board, r, c, st.defender.value);
    WinningLinesLong(st.board);
    WinningLinesLong(newBoard);
    NewlyFormedMember(WinningLines(st.board), WinningLines(newBoard), st.defender.value, l);
  }

  /** handleSelectFactor and handleCellClick touch nothing but the factor and the selection; a click selects only an unowned cell, with a factor chosen and a human defender. */
  lemma InputsKeepValid(st: Session, factor: int, r: int, c: int)
    requires SessionValid(st) && SelectionInBoard(st) && InBoard(st.board, r, c)
    ensures var st' := SelectFactor(st, factor);
      SessionValid(st') && SelectionInBoard(st') && st' == st.(attackingFactor := st'.attackingFactor) &&
      (st'.attackingFactor != st.attackingFactor ==> st'.attackingFactor == Some(factor))
    ensures var st' := CellClick(st, r, c);
      SessionValid(st') && SelectionInBoard(st') && st' == st.(selectedCell := st'.selectedCell) &&
      (st'.selectedCell != st.selectedCell ==>
        st'.selectedCell == Some(Coord(r, c)) && st.board[r][c].owner == None && FactorSet(st.attackingFactor))
  {
  }

  /** A divisor divides its multiple exactly. */
  lemma ExactQuotient(f: int, n: int)
    requires Divides(f, n)
    ensures f * (n / f) == n
  {
  }

  /** The decisions of the AI and turn-management effect, with the defender's answer submitted on the selected cell; `pending` is the board the scheduled nextTurn will see, when one is scheduled. */
  ghost function AiStep(st: Session, factorChoice: nat, moveChoice: nat, bonus: (Board, int, int, Player) -> int): (Session, Option<Board>)
    requires SessionValid(st)
  {
    if st.gameState != Playing then (st, None)
    else
      var factors := AvailableFactors(st.gameLevel, st.gameState, st.board);
      if st.attacker.Some? && !FactorSet(st.attackingFactor) && |factors| == 0 then (st, Some(st.board))
      else if st.attacker.Some? && st.playerConfigs.Get(st.attacker.value).isAi && !FactorSet(st.attackingFactor) then
        (st.(attackingFactor := Some(AiSelectFactor(factors, factorChoice))), None)
      else if st.defender.Some? && st.playerConfigs.Get(st.defender.value).isAi && FactorSet(st.attackingFactor) && st.selectedCell.None? then
        var d := st.defender.value;
        var best := BestMove(st.board, st.attackingFactor.value, LevelConfigOf(st.gameLevel).defenderRange, d,
                             Others(st.players, d), st.playerConfigs.Get(d).difficulty, moveChoice);
        if best.Some? then
          var picked := st.(selectedCell := Some(Coord(best.value.r, best.value.c)));
          (Answer(picked, best.value.factor2, bonus), Some(st.board))
        else (NextTurn(st, st.board), None)
      else (st, None)
  }

  /** The AI attacker picks a factor that some free cell can still take. */
  lemma AiAttackerPicksLive(st: Session, factorChoice: nat, moveChoice: nat, bonus: (Board, int, int, Player) -> int)
    requires SessionValid(st) && st.gameState == Playing && |st.board| > 0
    requires st.attacker.Some? && st.playerConfigs.Get(st.attacker.value).isAi && !FactorSet(st.attackingFactor)
    ensures var (st', pending) := AiStep(st, factorChoice, moveChoice, bonus);
      var cfg := LevelConfigOf(st.gameLevel);
      (pending.Some? <==> AvailableFactors(st.gameLevel, st.gameState, st.board) == []) &&
      (pending.None? ==>
        (st'.attackingFactor.Some? && FactorSet(st'.attackingFactor) &&
         cfg.attackerRange.Contains(st'.attackingFactor.value) &&
         Playable(st.board, st'.attackingFactor.value, cfg.defenderRange) &&
         st' == st.(attackingFactor := st'.attackingFactor)))
  {
    var factors := AvailableFactors(st.gameLevel, st.gameState, st.board);
    if factors != [] {
      AvailableFactorsMember(st.gameLevel, st.gameState, st.board, AiSelectFactor(factors, factorChoice));
    }
  }

  /** An AI defender that has a move answers it correctly: the cell becomes its own, the move is logged and the turn passes after the board as it was. */
  lemma AiDefenderAnswers(st: Session, factorChoice: nat, moveChoice: nat, bonus: (Board, int, int, Player) -> int)
    requires SessionValid(st) && st.gameState == Playing
    requires st.defender.Some? && st.playerConfigs.Get(st.defender.value).isAi
    requires FactorSet(st.attackingFactor) && st.selectedCell.None?
    requires ValidMoves(st.board, st.attackingFactor.value, LevelConfigOf(st.gameLevel).defenderRange) != []
    ensures var (st', pending) := AiStep(st, factorChoice, moveChoice, bonus);
      var sel := st'.selectedCell;
      pending == Some(st.board) && sel.Some? && InBoard(st.board, sel.value.r, sel.value.c) &&
      st.board[sel.value.r][sel.value.c].owner == None &&
      st'.board == SetOwner(st.board, sel.value.r, sel.value.c, st.defender.value) &&
      |st'.moves| == |st.moves| + 1 && st'.moves[|st.moves|].player == st.defender.value &&
      SessionValid(st')
  {
    var d, f := st.defender.value, st.attackingFactor.value;
    var best := BestMove(st.board, f, LevelConfigOf(st.gameLevel).defenderRange, d,
                         Others(st.players, d), st.playerConfigs.Get(d).difficulty, moveChoice);
    var m := best.value;
    ExactQuotient(f, st.board[m.r][m.c].number);
    var picked := st.(selectedCell := Some(Coord(m.r, m.c)));
    AnswerEffect(picked, m.factor2, bonus);
  }

  /** The AI defender branch as written: the handleSubmitFactor it calls comes from the render in which no cell was selected, so it returns at once and schedules no nextTurn. */
  function AiDefendAsWritten(st: Session, moveChoice: nat, bonus: (Board, int, int, Player) -> int): (Session, Option<Board>)
    requires IsSquare(st.board) && SelectionInBoard(st) && |st.players| > 0 && st.defender.Some? && FactorSet(st.attackingFactor)
  {
    var d := st.defender.value;
    var best := BestMove(st.board, st.attackingFactor.value, LevelConfigOf(st.gameLevel).defenderRange, d,
                         Others(st.players, d), st.playerConfigs.Get(d).difficulty, moveChoice);
    if best.Some? then
      var submitted := Answer(st, best.value.factor2, bonus);
      (submitted.(selectedCell := Some(Coord(best.value.r, best.value.c))), if ReadyToSubmit(st) then Some(st.board) else None)
    else (NextTurn(st, st.board), None)
  }

  /** A cell still selected when a factor is chosen (handleNewGame and handleStartGame leave selectedCell as it was) blocks an
      AI defender: the effect's guard on the selection never fires and clicks are ignored, so nothing happens. */
  lemma StaleSelectionStallsAiDefender(st: Session, factorChoice: nat, moveChoice: nat, bonus: (Board, int, int, Player) -> int)
    requires SessionValid(st) && st.gameState == Playing && st.selectedCell.Some? && FactorSet(st.attackingFactor)
    requires st.defender.Some? && st.playerConfigs.Get(st.defender.value).isAi
    ensures AiStep(st, factorChoice, moveChoice, bonus) == (st, None)
    ensures forall r, c :: InBoard(st.board, r, c) ==> CellClick(st, r, c) == st
  {
  }

  /** As written, an AI defender with a move selects the cell and then nothing more happens: the board stays, no turn change is scheduled, a further run of the effect does nothing and clicks are ignored. */
  lemma AiDefenderStallsAsWritten(st: Session, factorChoice: nat, moveChoice: nat, bonus: (Board, int, int, Player) -> int)
    requires SessionValid(st) && st.gameState == Playing
    requires st.defender.Some? && st.playerConfigs.Get(st.defender.value).isAi
    requires FactorSet(st.attackingFactor) && st.selectedCell.None?
    requires ValidMoves(st.board, st.attackingFactor.value, LevelConfigOf(st.gameLevel).defenderRange) != []
    ensures var (st', pending) := AiDefendAsWritten(st, moveChoice, bonus);
      pending == None && st'.board == st.board && st'.moves == st.moves && st'.scores == st.scores &&
      st'.selectedCell.Some? && SessionValid(st') &&
      AiStep(st', factorChoice, moveChoice, bonus) == (st', None) &&
      forall r, c :: InBoard(st'.board, r, c) ==> CellClick(st', r, c) == st'
  {
  }

  /** The settings chosen on the setup screen and in the AI control panel. */
  datatype Settings = Settings(numPlayers: int, players: seq<Player>, gameLevel: Level, gridSize: nat, playerConfigs: PlayerConfigs)

  /** Whose turn it is and how far it has got. */
  datatype Turn = Turn(currentPlayerIndex: nat, attacker: Option<Player>, defender: Option<Player>,
                       attackingFactor: Option<int>, selectedCell: Option<Coord>, highlightedLines: seq<WinningLine>)

  /** The React state of the game screen, the settings and the turn state each kept as one record. Setters become field updates; a setTimeout(nextTurn) becomes the board its closure sees, returned to the caller, who later passes it to NextTurnOn. */
  class GameSession {
    var gameState: GameState
    var board: Board
    var scores: Scores
    var moves: seq<Move>
    var winningLines: seq<WinningLine>
    var settings: Settings
    var turn: Turn

    function State(): Session
      reads this
    {
      Session(gameState, settings.numPlayers, settings.players, scores, board, settings.gameLevel, settings.gridSize,
              moves, winningLines, turn.currentPlayerIndex, turn.attacker, turn.defender, turn.attackingFactor,
              turn.selectedCell, turn.highlightedLines, settings.playerConfigs)
    }

    predicate Valid()
      reads this
    {
      SessionValid(State())
    }

    constructor ()
      ensures State() == InitialSession && Valid()
    {
      gameState, board, scores, moves, winningLines := Setup, [], ZeroScores, [], [];
      settings := Settings(2, [Rouge, Bleu], 1, 5, DefaultConfigs);
      turn := Turn(0, None, None, None, None, []);
    }

    method SetupRoles(playerIndex: nat)
      requires |settings.players| > 0
      modifies this
      ensures var roles := RolesFor(old(settings.players), playerIndex);
        State() == old(State()).(attacker := Some(roles.0), defender := Some(roles.1))
    {
      var players := settings.players;
      var currentAttacker := players[playerIndex % |players|];
      var currentDefender := players[(playerIndex + 1) % |players|];
      turn := turn.(attacker := Some(currentAttacker), defender := Some(currentDefender));
    }

    method HandleNewGame()
      modifies this
      ensures State() == NewGame(old(State()))
    {
      gameState := Setup;
      board := [];
      scores := ZeroScores;
      moves := [];
      winningLines := [];
      turn := turn.(currentPlayerIndex := 0, attacker := None, defender := None, attackingFactor := None);
    }

    method HandleStartGame(num: int, level: Level, size: nat, perm: seq<nat>)
      requires |settings.players| > 0 && IsPermutation(perm, |Pool(level, num)|)
      modifies this
      ensures State() == StartGame(old(State()), num, level, size, perm)
    {
      var newBoard := GenerateBoard(level, size, num, perm);
      EnterPlay(num, level, size, newBoard);
    }

    /** The setters of handleStartGame. setupRoles(0) is the callback of the render before the call, so it reads the player list before it is replaced. */
    method EnterPlay(num: int, level: Level, size: nat, newBoard: Board)
      requires |settings.players| > 0
      modifies this
      ensures State() == StartWith(old(State()), num, level, size, newBoard)
    {
      SetupRoles(0);
      var newPlayers := if num == 3 then [Rouge, Bleu, Vert] else [Rouge, Bleu];
      settings := settings.(players := newPlayers, numPlayers := num, gameLevel := level, gridSize := size);
      board := newBoard;
      scores := ZeroScores;
      gameState := Playing;
    }

    /** nextTurn as the closure that holds board b runs it. */
    method NextTurnOn(b: Board)
      requires |settings.players| > 0
      modifies this
      ensures State() == NextTurn(old(State()), b)
    {
      turn := turn.(attackingFactor := None, selectedCell := None, highlightedLines := []);
      var nextIndex := turn.currentPlayerIndex + 1;
      var isBoardFull := BoardFull(b);
      if isBoardFull {
        gameState := GameOver;
        turn := turn.(attacker := None, defender := None);
        return;
      }
      turn := turn.(currentPlayerIndex := nextIndex);
      SetupRoles(nextIndex);
    }

    method HandleSelectFactor(factor: int)
      modifies this
      ensures State() == SelectFactor(old(State()), factor)
    {
      if turn.attacker.Some? && settings.playerConfigs.Get(turn.attacker.value).isAi {
        return;
      }
      turn := turn.(attackingFactor := Some(factor));
    }

    method HandleCellClick(r: int, c: int)
      requires InBoard(board, r, c)
      modifies this
      ensures State() == CellClick(old(State()), r, c)
    {
      if board[r][c].owner.Some? || !FactorSet(turn.attackingFactor) ||
         (turn.defender.Some? && settings.playerConfigs.Get(turn.defender.value).isAi) {
        return;
      }
      turn := turn.(selectedCell := Some(Coord(r, c)));
    }

    /** The correct-answer branch of handleSubmitFactor: claim the copy's cell, log the move, rescan the lines, and score and highlight when the points are positive. */
    method ClaimCell(r: int, c: int, d: Player, factor1: int, factor2: int, bonus: (Board, int, int, Player) -> int)
      requires IsSquare(board) && InBoard(board, r, c)
      modifies this
      ensures var newBoard := SetOwner(old(board), r, c, d);
        board == newBoard && moves == old(moves) + [Move(d, old(board)[r][c].number, factor1, factor2)] &&
        winningLines == WinningLines(newBoard) &&
        scores == AnswerScores(old(scores), d, true, bonus(newBoard, r, c, d)) &&
        gameState == old(gameState) && settings == old(settings) &&
        turn == (if bonus(newBoard, r, c, d) + 1 > 0
                 then old(turn).(highlightedLines := FormedLines(old(board), newBoard, d))
                 else old(turn))
    {
      WinningLinesLong(board);
      WinningLinesLong(SetOwner(board, r, c, d));
      var numberToSolve := board[r][c].number;
      var oldBoard := board;
      var newBoard := SetOwner(oldBoard, r, c, d);
      board := newBoard;
      moves := moves + [Move(d, numberToSolve, factor1, factor2)];
      var bonusPoints := bonus(newBoard, r, c, d);
      var totalPointsGained := bonusPoints + 1;
      var oldLines := FindWinningLines(oldBoard);
      var newLines := FindWinningLines(newBoard);
      winningLines := newLines;
      if totalPointsGained > 0 {
        scores := scores.Set(d, scores.Get(d) + totalPointsGained);
        turn := turn.(highlightedLines := NewlyFormedLines(oldLines, newLines, d));
      }
    }

    /** handleSubmitFactor; `pending` is the board of the nextTurn it schedules. */
    method HandleSubmitFactor(factor2: int, bonus: (Board, int, int, Player) -> int) returns (pending: Option<Board>)
      requires IsSquare(board) && SelectionInBoard(State())
      modifies this
      ensures State() == Answer(old(State()), factor2, bonus)
      ensures pending == if ReadyToSubmit(old(State())) then Some(old(board)) else None
    {
      if turn.selectedCell.None? || !FactorSet(turn.attackingFactor) || turn.defender.None? {
        return None;
      }
      var r, c := turn.selectedCell.value.r, turn.selectedCell.value.c;
      var d, factor1 := turn.defender.value, turn.attackingFactor.value;
      var numberToSolve := board[r][c].number;
      var isCorrect := factor1 * factor2 == numberToSolve;
      pending := Some(board);
      if isCorrect {
        ClaimCell(r, c, d, factor1, factor2, bonus);
      } else {
        scores := scores.Set(d, Max(0, scores.Get(d) - 1));
      }
    }

    /** The AiControlModal's save: one player's configuration replaced. */
    method SetPlayerConfig(p: Player, config: PlayerConfig)
      modifies this
      ensures State() == old(State()).(playerConfigs := old(settings.playerConfigs).Set(p, config))
    {
      settings := settings.(playerConfigs := settings.playerConfigs.Set(p, config));
    }

    /** One run of the AI and turn-management effect, the defender's answer submitted on the cell it selected. */
    method AiTurn(factorChoice: nat, moveChoice: nat, bonus: (Board, int, int, Player) -> int) returns (pending: Option<Board>)
      requires Valid()
      modifies this
      ensures (State(), pending) == AiStep(old(State()), factorChoice, moveChoice, bonus)
    {
      if gameState != Playing {
        return None;
      }
      var factors := ComputeAvailableFactors(settings.gameLevel, gameState, board);
      var attacker, defender, attackingFactor := turn.attacker, turn.defender, turn.attackingFactor;
      var configs := settings.playerConfigs;
      if attacker.Some? && !FactorSet(attackingFactor) && |factors| == 0 {
        return Some(board);
      }
      if attacker.Some? && configs.Get(attacker.value).isAi && !FactorSet(attackingFactor) {
        turn := turn.(attackingFactor := Some(AiSelectFactor(factors, factorChoice)));
        return None;
      }
      if defender.Some? && configs.Get(defender.value).isAi && FactorSet(attackingFactor) && turn.selectedCell.None? {
        var d := defender.value;
        var opponents := Others(settings.players, d);
        var bestMove := FindBestAiMove(board, attackingFactor.value, LevelConfigOf(settings.gameLevel).defenderRange, d,
                                       opponents, configs.Get(d).difficulty, moveChoice);
        if bestMove.Some? {
          turn := turn.(selectedCell := Some(Coord(bestMove.value.r, bestMove.value.c)));
          pending := HandleSubmitFactor(bestMove.value.factor2, bonus);
        } else {
          NextTurnOn(board);
          pending := None;
        }
        return;
      }
      return None;
    }
  }
}
