# Multiplicato, modelled in Dafny

Multiplicato is a multiplication board game for two or three players (Rouge, Bleu, Vert).

**The board.** It is a square grid of numbers. Each number is a product `i * j`, where `i` comes from the level's attacker range and `j` from its defender range.

**A turn.**
- One player attacks by choosing a factor.
- The next player defends by clicking a free cell and typing the second factor.
- A correct answer claims the cell and scores `1 + bonus`.
- A wrong answer costs one point, but a score never goes below zero.
- Then the turn passes: the index advances by one, so the last defender becomes the attacker.

**Lines.** Runs of three or more cells owned by one player, along a row, column or diagonal, are "winning lines". They score 1, 3 or 10 points for lengths 3, 4 and 5 or more.

**The computer.** A player can be an AI at three tiers:
- tier 1 plays a random valid move;
- tier 2 plays the first move that gains it a line;
- tier 3 first tries to win, then to block the first opponent, then plays at random.

## The model, module by module

- `Types` (`types.dfy`): players, cells, boards, lines, moves, scores and ranges.
- `Constants` (`constants.dfy`): the level table and the streak bonus table.
- `BoardGen` (`boardgen.dfy`): board generation.
  - The product loops, padding and layout are methods.
  - Each method is proved equal to a specification function.
  - The properties are lemmas about those functions.
- `Runs` (`runs.dfy`): the run-scanning loops of `findLineStreaks` and `scoreLine` on one line.
  - Each loop is proved equal to a function over maximal runs (`Spans`).
  - Those runs are proved sound, complete, ordered and non-overlapping.
- `BoardLines` (`board_lines.dfy`): the traversals of `findWinningLines` and `calculateScores`.
  - These are rows, columns, and both diagonal families kept when at least 3 long.
  - The proof shows the scores equal the line points.
- `Moves` (`moves.dfy`): `getValidAiMoves`, sound, complete and in row-major order.
- `Ai` (`ai.dfy`): the factor choice, the three tiers and `findBestAiMove`.
- `LineKeys` (`linekeys.dfy`): the line key of the answer handler, and the "newly formed lines" filter.
- `Game` (`game.dfy`): the rules part of the game screen.
  - Its React state becomes the class `GameSession`, whose methods update its fields.
  - Each method is proved equal to a transition function on a `Session` value.
  - The promised properties are lemmas about those functions.

**Timers.** `setTimeout(nextTurn)` is not run. A method that schedules it returns the board the scheduled call's closure sees (`pending`). The caller applies it later with `NextTurnOn`.

**Stale board.** That closure sees the board from before the move, not the new one. So on the move that fills the board, nextTurn still advances to the next player. The game ends one step later, on the skip path: no factor is playable, and the next nextTurn sees the full board.

**Stale selection.** handleNewGame and handleStartGame do not clear the selected cell (App.tsx:146-168), and the model keeps it (`Game.NewGameResets`, `Game.StartGameSetsUp`). A cell can be left selected, for instance by the stall in Findings, and carried into the next game.
- The AI defender's guard `!selectedCell` (App.tsx:362) then never fires, and clicks are ignored while an AI defends. So an AI defender never answers (`Game.StaleSelectionStallsAiDefender`); with Bleu an AI, that happens on the first turn.
- The answer dialog also reads the stale cell of the new board (App.tsx:582-588); see "## Left out".

**Randomness.** The shuffle is a caller-supplied permutation `perm` of the pool. Each `Math.random` pick is a caller-supplied `choice`, used as the index `choice % n`.

## Model

| member | source | states |
|---|---|---|
| Constants.LevelConfigOf | constants.ts:9-17 | Every level has `2 <= attacker min <= attacker max` and `defender min == 1 <= defender max`, so the validator never divides by zero. |
| Constants.StreakPoints | utils.ts:74-78 | A streak of length n >= 3 earns the POINTS_MAP entry at min(n, 5); that entry always exists and is between 1 and 10; shorter streaks earn nothing. |
| Constants.PointsMapShape | constants.ts:19-23 | POINTS_MAP is defined exactly at 3, 4 and 5, with values 1, 3 and 10, and is strictly increasing. |
| BoardGen.EffectiveRangesShape | utils.ts:5-10 | With 3 players each minimum becomes exactly max(min, 4) and the maxima stay, so a factor is in an effective range iff it is in the level's range and at least 4. Otherwise the level's ranges are used unchanged. |
| BoardGen.ThreePlayersNarrowDefender | utils.ts:9 | With 3 players the defender minimum really goes from 1 to 4. |
| BoardGen.ProductsMember | utils.ts:12-17 | x is in the product list iff x = i * j for some i in the attacker range and j in the defender range. |
| BoardGen.Dedup | utils.ts:20 | The deduplicated list has the same members and no repeats. |
| BoardGen.ComputeProducts | utils.ts:12-17 | The nested loops build exactly the row-by-row product list. |
| BoardGen.PadNumbers | utils.ts:35-42 | The padding loop appends exactly the cycled unique products up to the cell count. |
| BoardGen.LayOut | utils.ts:45-55 | The layout loops build exactly the row-major board of unowned cells, with 0 past the end of the numbers. |
| BoardGen.ArrangeNumbers | utils.ts:22-42 | Doubling the pool for 3 players, shuffling by `perm`, taking N² and padding give exactly `TakeAndPad(Shuffled(..))`. |
| BoardGen.GenerateBoard | utils.ts:4-57 | generateBoard yields exactly `GeneratedBoard(level, gridSize, numPlayers, perm)`. |
| BoardGen.GeneratedShape | utils.ts:45-55 | The board has gridSize rows of gridSize cells each, all unowned. |
| BoardGen.CellsAreProducts | utils.ts:7-17 | Every cell number is 0 or a product of the effective attacker and defender ranges. |
| BoardGen.NumberFromUniqueProducts | utils.ts:20-42 | Every number taken or padded comes from the deduplicated product set. |
| BoardGen.TwoPlayersDistinct | utils.ts:20-32 | With 2 players no non-zero number appears on two cells. |
| BoardGen.ThreePlayersLength | utils.ts:35-42 | With 3 players the number list is exactly gridSize² long. |
| BoardGen.ThreePlayersFull | utils.ts:35-50 | With 3 players no cell is 0: every number is at least 16. |
| BoardGen.UniqueProductsNonEmpty | utils.ts:12-20 | The product set is never empty, so the padding always has a source. |
| Runs.RunEnd | utils.ts:139-142 | Where the inner while loop stops: the first index at or after i with a different owner, or the end. |
| Runs.SpansAreMaximalRuns | utils.ts:128-155 | Every run found is at least 3 long and maximal with one owner. Every such run is found. Runs are left to right and do not overlap. |
| Runs.SpansFromComplete | utils.ts:135-152 | A scan from a run boundary finds every maximal run of length >= 3 after it. |
| Runs.FindLineStreaks | utils.ts:128-155 | findLineStreaks returns exactly the lines of the maximal runs of length >= 3, with their coordinates. |
| Runs.StreakCoords | utils.ts:146-149 | The coordinate loop collects exactly the cells of the run, in order. |
| Runs.StreakLinesShape | utils.ts:128-155 | Every returned line has at least 3 coordinates, each a cell of the line owned by the line's player. |
| Runs.ScoreLine | utils.ts:59-84 | scoreLine returns exactly the POINTS_MAP value of each maximal run of length >= 3, summed per player. |
| Runs.RunStop | utils.ts:69-72 | The inner while loop of scoreLine stops at the end of the run. |
| Runs.AwardStreak | utils.ts:74-80 | Only the run owner's total moves, by StreakPoints(length) when the run is at least 3 long. |
| Runs.StreakLinesPoints | utils.ts:59-155 | On one line, the points of findLineStreaks' lines equal scoreLine's total for every player. |
| BoardLines.DiagonalCells | utils.ts:176-188 | The inner diagonal loop collects exactly `Diag1(b, k)` and `Diag2(b, k)`, which `BoardLines.Diagonals` characterises. |
| BoardLines.Diagonals | utils.ts:176-188 | Diagonal k holds exactly the board cells with r + c == k. Its mirror holds exactly the cells (r, size-1-c) for those cells. Each cell carries its owner, and both list their cells by strictly decreasing row, the loop's order. |
| BoardLines.DiagonalOwners | utils.ts:110-122 | The same traversal in calculateScores collects exactly the owners of those cells. |
| BoardLines.RowStreaks | utils.ts:164-167 | The row loop gathers exactly the streaks of every row. |
| BoardLines.ColumnStreaks | utils.ts:170-173 | The column loop gathers exactly the streaks of every column. |
| BoardLines.DiagonalStreaks | utils.ts:176-188 | For each k, both diagonals are scanned only when at least 3 long. |
| BoardLines.DiagonalStreaksAll | utils.ts:176-188 | The loop over k gathers exactly the streaks of all 2·size-1 diagonal pairs. |
| BoardLines.FindWinningLines | utils.ts:158-191 | findWinningLines returns exactly the lines of rows, then columns, then the kept diagonals. |
| BoardLines.RowScores | utils.ts:97-101 | The row loop of calculateScores totals exactly the rows' scores. |
| BoardLines.ColumnScores | utils.ts:103-107 | The column loop totals exactly the columns' scores. |
| BoardLines.DiagonalScores | utils.ts:110-122 | For each k, both diagonals are scored only when at least 3 long. |
| BoardLines.DiagonalScoresAll | utils.ts:109-122 | The diagonal loop totals exactly the scores of the kept diagonals. |
| BoardLines.CalculateScores | utils.ts:86-125 | calculateScores returns exactly the sum of scoreLine over the same traversals. |
| BoardLines.ScoresMatchLines | utils.ts:86-191 | For every player, calculateScores equals the sum of POINTS_MAP[min(length, 5)] over that player's lines from findWinningLines. |
| BoardLines.WinningLinesLong | utils.ts:158-191 | Every winning line has at least 3 coordinates. |
| BoardLines.EmptyBoard | utils.ts:86-89 | The empty board has no lines and zero scores. |
| Moves.GetValidAiMoves | utils.ts:195-210 | The forEach loops list exactly `ValidMoves`. |
| Moves.ValidMovesMember | utils.ts:195-210 | A move (r, c, f2) is listed iff the cell exists, is unowned, and the factor (non-zero) divides its number. In addition f2 is the quotient and lies in the defender range. |
| Moves.ValidMovesOrdered | utils.ts:196-209 | The list is in strict row-major order. |
| Ai.AiSelectFactor | utils.ts:212-216 | An empty list gives 0; otherwise the chosen factor is an element of the list. |
| Ai.Level1Move | utils.ts:218-221 | No move exactly when the list is empty, and otherwise an element of it. |
| Ai.FirstGain | utils.ts:226-237 | The index found gains the player a line and no earlier move does; when none is found, no move does. |
| Ai.CheckMoveForNewLine | utils.ts:226-232 | The simulated claim on a copy is compared by the player's line count, exactly `Gains`. |
| Ai.CheckMove | utils.ts:255-261 | Level 3's check against the precomputed line list is exactly `Gains`. |
| Ai.FirstGainingMove | utils.ts:264-275 | The `for ... of` loop with early return gives the first gaining move, or nothing. |
| Ai.AiFindBestMoveLevel2 | utils.ts:223-241 | Equals `Level2Move`. |
| Ai.AiFindBestMoveLevel3 | utils.ts:244-279 | Equals `Level3Move`. |
| Ai.Level2Choice | utils.ts:223-241 | Tier 2 plays the first move that strictly raises the AI's line count, else the random pick. |
| Ai.Level3Choice | utils.ts:252-279 | Tier 3 plays the first winning move, else the first move that raises the human's count, else the random pick. |
| Ai.BestMove | utils.ts:282-304 | findBestAiMove gives nothing iff there is no valid move. Otherwise it returns a valid move. |
| Ai.BestMoveTiers | utils.ts:290-303 | Tier 1, and tier 3 with no opponents, play the random pick. Tier 2 plays `Level2Move`. Tier 3 plays `Level3Move` against the first opponent. |
| Ai.FindBestAiMove | utils.ts:282-304 | Equals `BestMove`. |
| LineKeys.LineKeyReversed | App.tsx:268-275 | Reversing a line's coordinates gives the same key. |
| LineKeys.LineKeyOfSameEnds | App.tsx:268-275 | Lines of one player with the same unordered pair of endpoints have the same key. |
| LineKeys.LineKeySameEnds | App.tsx:268-275 | Equal keys mean the same player and the same unordered pair of endpoints. |
| LineKeys.SortedPairSymmetric | App.tsx:273 | Sorting the two endpoint strings does not depend on their order. |
| LineKeys.NewlyFormedMember | App.tsx:277-282 | A line is newly formed iff it is a new line of the defender that shares endpoints with no old line. |
| Game.RolesDiffer | App.tsx:139-144 | With at least two distinct players the attacker and the defender differ. |
| Game.RolesRotate | App.tsx:139-144 | The attacker of turn i + 1 is the defender of turn i. |
| Game.RolesPeriodic | App.tsx:139-144 | The roles repeat every P turns. |
| Game.RolesValid | App.tsx:139-144 | In either player list the roles are two distinct players of the list. |
| Game.AvailableFactorsMember | App.tsx:102-133 | Outside play or on an empty board, every attacker factor is offered. Otherwise exactly the factors some unowned non-zero cell admits. Always ascending. |
| Game.ComputeAvailableFactors | App.tsx:102-133 | The loops with `break` compute exactly `AvailableFactors`. |
| Game.FactorIsPlayable | App.tsx:113-126 | The cell scan that stops at the first playable cell decides exactly `Playable`. |
| Game.NewGameResets | App.tsx:146-156 | A new game is in setup with an empty board, no moves, zero scores, index 0 and no roles, and is valid. The selected cell is left as it was. |
| Game.StartGameSetsUp | App.tsx:158-168 | The game starts with the chosen player list, zero scores and playing state. Rouge attacks Bleu, the roles of index 0, even though setupRoles reads the old list. The selected cell and the factor are left as they were. |
| Game.NextTurnSteps | App.tsx:177-194 | The factor, the cell and the highlights are cleared. A full board ends the game with no roles and the same index. Otherwise the index i advances by one; the last defender attacks, and players[(i + 2) mod P] defends. |
| Game.AnswerScoring | App.tsx:226-235 | Only the defender's score moves: by 1 + bonus after a correct answer when that is positive, and to max(0, s-1) after a wrong one. It is never negative. |
| Game.AnswerEffect | App.tsx:209-292 | A correct answer changes only cell (r, c), which becomes the defender's, and appends one move record. A wrong answer leaves the board and the log alone. The session stays valid. |
| Game.AnswerHighlights | App.tsx:230-283 | The highlighted lines are exactly the defender's new lines that share endpoints with no old line. |
| Game.InputsKeepValid | App.tsx:196-207 | A factor choice and a click change only the factor or the selection. A click selects only an unowned cell, with a factor chosen and a human defender. |
| Game.Others | App.tsx:364 | The opponents are exactly the other players of the list. |
| Game.AiAttackerPicksLive | App.tsx:341-359 | An AI attacker with no playable factor skips; otherwise it picks a factor some free cell can still take, and nothing else changes. |
| Game.AiDefenderAnswers | App.tsx:362-372 | With the submit corrected, an AI defender that has a move claims a free cell and logs the move, and nextTurn is scheduled. |
| Game.AiDefenderStallsAsWritten | App.tsx:362-372 | As written, an AI defender with a move selects the cell and nothing more happens. Board, scores and log stay; no nextTurn is scheduled; the effect and clicks do nothing after. |
| Game.GameSession.constructor | App.tsx:50-98 | The initial session: setup, two players Rouge and Bleu, no board, zero scores, no roles, everyone human at difficulty 1; it is valid. |
| Game.GameSession.SetupRoles | App.tsx:139-144 | Sets the attacker and defender to the roles of playerIndex and nothing else. |
| Game.GameSession.HandleNewGame | App.tsx:146-156 | The new state is `NewGame` of the old one. |
| Game.GameSession.HandleStartGame | App.tsx:158-168 | The new state is `StartGame` of the old one, with the generated board. |
| Game.GameSession.NextTurnOn | App.tsx:177-194 | The new state is `NextTurn` of the old one on the closure's board. |
| Game.GameSession.HandleSelectFactor | App.tsx:196-199 | The new state is `SelectFactor` of the old one. |
| Game.GameSession.HandleCellClick | App.tsx:201-207 | The new state is `CellClick` of the old one. |
| Game.GameSession.ClaimCell | App.tsx:218-283 | The claim sets the new board, the move log, the lines, the score and the highlights, field by field. |
| Game.GameSession.HandleSubmitFactor | App.tsx:209-292 | The new state is `Answer` of the old one. A nextTurn on the pre-move board is pending exactly when a cell, a factor and a defender were set. |
| Game.GameSession.SetPlayerConfig | App.tsx:435-438 | Only the given player's configuration changes. |
| Game.GameSession.AiTurn | App.tsx:339-381 | The effect's decision is `AiStep` of the old state. This is the corrected version, in which the AI defender's submit sees the cell it selected (see Findings). `Game.AiDefendAsWritten` models the branch as written. |
| Game.StaleSelectionStallsAiDefender | App.tsx:146-168 | A cell still selected when a factor is chosen blocks an AI defender: the effect does nothing and clicks are ignored. |

## Left out

- Rendering, layout, the modals, the score popup, the flying points and the incorrect-cell flash: presentation only, and partly floating point.
- PDF and print export (App.tsx:295-335): it depends on browser libraries.
- Timers and awaited delays are not run. A scheduled `nextTurn` is returned as the board its closure sees and applied later by the caller. The timings themselves are not modelled.
- `Game.GameSession.NextTurnOn`: only the board the timer's closure captured is carried in `pending`. The closure also captured `currentPlayerIndex` and, through `setupRoles`, `players` (App.tsx:194, 291). NextTurnOn reads the session's current index and players instead. It is faithful only when no other transition, such as handleNewGame or handleStartGame, changes the index or the players before the timer fires.
- The React effect and dependency wiring. `AiStep` models only one run of the effect's decisions; re-render order is not modelled.
- `calculateBonusForMove`: its source is not part of this model, so it is a function parameter `bonus`.
- Uniformity of the shuffle and of the `Math.random` picks. A permutation and a choice index stand in for them: any shuffle and any pick is allowed.
- `Runs.ScoreLine`: scoreLine's `Partial<Scores>` is a total `Scores` with zero for absent players. This is equivalent once added by updateScores.
- `BoardLines.FindWinningLines`: it requires a square board. The source reads `row[c]` out of range on a ragged one.
- `BoardLines.CalculateScores`: it requires a square board, for the same reason as FindWinningLines.
- `Game.GameSession.HandleStartGame`: gridSize is a natural number, and the UI only passes 5 or 7.
- Player names, `PLAYER_COLORS` and the displayed point tables (App.tsx:548-558): presentation only. The displayed tables disagree with POINTS_MAP; the model follows POINTS_MAP.
- FactorModal's parsing of the typed answer: the model takes an integer `factor2`.
- FactorModal reads `board[selectedCell.r][selectedCell.c]` whenever a cell is selected and a defender is set (App.tsx:582-588). After a stale selection on a smaller new board, that cell may not exist. This is rendering, so the model does not cover it; see "Stale selection" above.
- Logging: the console.warn on the skip path and the console.error in the AI defender's fallback (App.tsx:344, 373) are output only.

## Findings

| source | as written | input that shows it | evidently intended | confidence | as-written member | corrected member |
|---|---|---|---|---|---|---|
| App.tsx:362-372 | The AI defender sets the selected cell and then calls handleSubmitFactor. But that callback comes from the render before the cell was selected, so it sees no cell and returns at once. No answer is made, no nextTurn is scheduled, and the effect does nothing after, so the game stalls. | Any playing state whose defender is an AI, with a factor set, no cell selected, and at least one valid move. | The AI submits its answer on the chosen cell and the turn passes. | not executed | Game.AiDefenderStallsAsWritten | Game.AiDefenderAnswers |
