/** Streak scanning along one line of cells (findLineStreaks and scoreLine in utils.ts). */
module Runs {
  import opened Types
  import opened Constants

  /** A cell of a traversal: its owner and where it sits on the board. */
  datatype LineCell = LineCell(owner: Option<Player>, r: int, c: int)

  /** The half-open index range [lo, hi) of a streak of `player`. */
  datatype Span = Span(player: Player, lo: int, hi: int)

  function Owners(line: seq<LineCell>): (o: seq<Option<Player>>)
    ensures |o| == |line|
  {
    seq(|line|, k requires 0 <= k < |line| => line[k].owner)
  }

  /** [lo, hi) is a maximal run of p: all owned by p, and neither neighbour is. */
  predicate IsMaximalRun(o: seq<Option<Player>>, p: Player, lo: int, hi: int) {
    0 <= lo < hi <= |o| &&
    (forall k :: lo <= k < hi ==> o[k] == Some(p)) &&
    (lo == 0 || o[lo - 1] != Some(p)) &&
    (hi == |o| || o[hi] != Some(p))
  }

  /** Where the inner `while` of the scan stops: the first index from i whose owner is not `who`. */
  function RunEnd(o: seq<Option<Player>>, i: nat, who: Option<Player>): (j: nat)
    requires i <= |o|
    ensures i <= j <= |o|
    ensures forall k :: i <= k < j ==> o[k] == who
    ensures j == |o| || o[j] != who
    decreases |o| - i
  {
    if i < |o| && o[i] == who then RunEnd(o, i + 1, who) else i
  }

  /** The streaks of length at least 3 that the scan reports when it starts at index i. */
  function SpansFrom(o: seq<Option<Player>>, i: nat): (sps: seq<Span>)
    requires i <= |o|
    ensures forall sp :: sp in sps ==> i <= sp.lo && sp.lo + 3 <= sp.hi <= |o|
    decreases |o| - i
  {
    if i == |o| then []
    else if o[i].None? then SpansFrom(o, i + 1)
    else
      var j := RunEnd(o, i, o[i]);
      (if j - i >= 3 then [Span(o[i].value, i, j)] else []) + SpansFrom(o, j)
  }

  function Spans(o: seq<Option<Player>>): seq<Span> {
    SpansFrom(o, 0)
  }

  /** A position where a scan may start: a run cannot begin to its left with the same owner. */
  predicate ScanStart(o: seq<Option<Player>>, i: nat)
    requires i <= |o|
  {
    i == 0 || i == |o| || o[i].None? || o[i - 1] != o[i]
  }

  lemma {:induction false} SpansFromSound(o: seq<Option<Player>>, i: nat)
    requires i <= |o| && ScanStart(o, i)
    ensures forall sp :: sp in SpansFrom(o, i) ==> IsMaximalRun(o, sp.player, sp.lo, sp.hi)
    decreases |o| - i
  {
    if i == |o| {
    } else if o[i].None? {
      SpansFromSound(o, i + 1);
    } else {
      var j := RunEnd(o, i, o[i]);
      assert o[j - 1] == o[i];
      SpansFromSound(o, j);
    }
  }

  /** A span that ends before every span of rest can lead them without breaking the order. */
  lemma ConsOrdered(h: Span, rest: seq<Span>)
    requires forall a, b :: 0 <= a < b < |rest| ==> rest[a].hi <= rest[b].lo
    requires forall sp :: sp in rest ==> h.hi <= sp.lo
    ensures var sps := [h] + rest; forall a, b :: 0 <= a < b < |sps| ==> sps[a].hi <= sps[b].lo
  {
    var sps := [h] + rest;
    forall a, b | 0 <= a < b < |sps|
      ensures sps[a].hi <= sps[b].lo
    {
      assert sps[b] == rest[b - 1];
      if a > 0 {
        assert sps[a] == rest[a - 1];
      } else {
        assert rest[b - 1] in rest;
      }
    }
  }

  lemma {:induction false} SpansFromOrdered(o: seq<Option<Player>>, i: nat)
    requires i <= |o|
    ensures forall a, b :: 0 <= a < b < |SpansFrom(o, i)| ==> SpansFrom(o, i)[a].hi <= SpansFrom(o, i)[b].lo
    decreases |o| - i
  {
    if i == |o| {
    } else if o[i].None? {
      SpansFromOrdered(o, i + 1);
    } else {
      var j := RunEnd(o, i, o[i]);
      SpansFromStep(o, i);
      SpansFromOrdered(o, j);
      if j - i >= 3 {
        ConsOrdered(Span(o[i].value, i, j), SpansFrom(o, j));
      }
    }
  }

  lemma {:induction false} SpansFromComplete(o: seq<Option<Player>>, i: nat, p: Player, lo: int, hi: int)
    requires i <= |o| && ScanStart(o, i)
    requires i <= lo && IsMaximalRun(o, p, lo, hi) && hi - lo >= 3
    ensures Span(p, lo, hi) in SpansFrom(o, i)
    decreases |o| - i
  {
    if o[i].None? {
      assert i != lo;
      SpansFromComplete(o, i + 1, p, lo, hi);
    } else {
      var j := RunEnd(o, i, o[i]);
      if i == lo {
        assert j == hi;
      } else {
        assert o[lo - 1] != Some(p) && o[lo] == Some(p);
        assert j <= lo;
        assert o[j - 1] == o[i];
        SpansFromComplete(o, j, p, lo, hi);
      }
    }
  }

  /** The reported streaks are exactly the maximal runs of length at least 3, left to right, without overlap. */
  lemma SpansAreMaximalRuns(o: seq<Option<Player>>)
    ensures forall sp :: sp in Spans(o) ==> sp.hi - sp.lo >= 3 && IsMaximalRun(o, sp.player, sp.lo, sp.hi)
    ensures forall p, lo, hi :: IsMaximalRun(o, p, lo, hi) && hi - lo >= 3 ==> Span(p, lo, hi) in Spans(o)
    ensures forall a, b :: 0 <= a < b < |Spans(o)| ==> Spans(o)[a].hi <= Spans(o)[b].lo
  {
    SpansFromSound(o, 0);
    SpansFromOrdered(o, 0);
    forall p, lo, hi | IsMaximalRun(o, p, lo, hi) && hi - lo >= 3
      ensures Span(p, lo, hi) in Spans(o)
    {
      SpansFromComplete(o, 0, p, lo, hi);
    }
  }

  /** The coordinates of cells lo..hi-1 of a line. */
  function CoordsOf(line: seq<LineCell>, lo: int, hi: int): (cs: seq<Coord>)
    requires 0 <= lo <= hi <= |line|
    ensures |cs| == hi - lo
    ensures forall k :: 0 <= k < hi - lo ==> cs[k] == Coord(line[lo + k].r, line[lo + k].c)
  {
    seq(hi - lo, k requires 0 <= k < hi - lo => Coord(line[lo + k].r, line[lo + k].c))
  }

  predicate SpansIn(sps: seq<Span>, n: int) {
    forall sp :: sp in sps ==> 0 <= sp.lo <= sp.hi <= n
  }

  /** The winning line of one span. */
  lemma CoordsOfSnoc(line: seq<LineCell>, lo: int, hi: int)
    requires 0 <= lo <= hi < |line|
    ensures CoordsOf(line, lo, hi + 1) == CoordsOf(line, lo, hi) + [Coord(line[hi].r, line[hi].c)]
  {
  }

  function LineOf(line: seq<LineCell>, sp: Span): WinningLine
    requires 0 <= sp.lo <= sp.hi <= |line|
  {
    WinningLine(sp.player, CoordsOf(line, sp.lo, sp.hi))
  }

  function ToLines(line: seq<LineCell>, sps: seq<Span>): (ls: seq<WinningLine>)
    requires SpansIn(sps, |line|)
    ensures |ls| == |sps|
  {
    if sps == [] then [] else [LineOf(line, sps[0])] + ToLines(line, sps[1..])
  }

  lemma {:induction false} ToLinesAt(line: seq<LineCell>, sps: seq<Span>, k: int)
    requires SpansIn(sps, |line|) && 0 <= k < |sps|
    ensures ToLines(line, sps)[k] == LineOf(line, sps[k])
    decreases k
  {
    if k > 0 {
      ToLinesAt(line, sps[1..], k - 1);
    }
  }

  /** One unfolding of the scan at a claimed cell. */
  lemma SpansFromStep(o: seq<Option<Player>>, i: nat)
    requires i < |o| && o[i].Some?
    ensures var j := RunEnd(o, i, o[i]);
      SpansFrom(o, i) == (if j - i >= 3 then [Span(o[i].value, i, j)] else []) + SpansFrom(o, j)
    ensures var j := RunEnd(o, i, o[i]);
      j - i < 3 ==> SpansFrom(o, i) == SpansFrom(o, j)
  {
    var j := RunEnd(o, i, o[i]);
    if j - i < 3 {
      assert [] + SpansFrom(o, j) == SpansFrom(o, j);
    }
  }

  lemma RunEndStop(o: seq<Option<Player>>, j: nat, who: Option<Player>)
    requires j <= |o| && (j == |o| || o[j] != who)
    ensures RunEnd(o, j, who) == j
  {
  }

  /** The winning lines reported for one line of cells. */
  function StreakLines(line: seq<LineCell>): seq<WinningLine> {
    ToLines(line, Spans(Owners(line)))
  }

  /** findLineStreaks has found `lines` before position i, and finds the lines of the spans from i on after it. */
  predicate FoundUpTo(line: seq<LineCell>, i: nat, lines: seq<WinningLine>)
    requires i <= |line|
  {
    lines + ToLines(line, SpansFrom(Owners(line), i)) == StreakLines(line)
  }

  /** Pushing the line of the run that starts at i (when it is long enough) keeps FoundUpTo, from the end of the run. */
  lemma FoundStep(line: seq<LineCell>, i: nat, lines: seq<WinningLine>)
    requires i < |line| && line[i].owner.Some? && FoundUpTo(line, i, lines)
    ensures var o := Owners(line);
      var j := RunEnd(o, i, o[i]);
      FoundUpTo(line, j, if j - i >= 3 then lines + [LineOf(line, Span(o[i].value, i, j))] else lines)
  {
    var o := Owners(line);
    assert o[i] == line[i].owner;
    var j := RunEnd(o, i, o[i]);
    SpansFromStep(o, i);
    var rest := SpansFrom(o, j);
    if j - i >= 3 {
      var sp := Span(o[i].value, i, j);
      assert ToLines(line, [sp] + rest) == [LineOf(line, sp)] + ToLines(line, rest) by {
        assert ([sp] + rest)[1..] == rest;
      }
      assert (lines + [LineOf(line, sp)]) + ToLines(line, rest) == lines + ([LineOf(line, sp)] + ToLines(line, rest));
    }
  }

  /** findLineStreaks: the two nested `while` loops of the source. */
  method FindLineStreaks(line: seq<LineCell>) returns (lines: seq<WinningLine>)
    ensures lines == StreakLines(line)
  {
    ghost var o := Owners(line);
    lines := [];
    var i := 0;
    while i < |line|
      invariant 0 <= i <= |line|
      invariant FoundUpTo(line, i, lines)
    {
      var player := line[i].owner;
      if player.None? {
        i := i + 1;
        continue;
      }
      FoundStep(line, i, lines);
      var j := i;
      while j < |line| && line[j].owner == player
        invariant i <= j <= |line|
        invariant RunEnd(o, j, player) == RunEnd(o, i, player)
      {
        j := j + 1;
      }
      RunEndStop(o, j, player);
      if j - i >= 3 {
        var coords := StreakCoords(line, i, j);
        lines := lines + [WinningLine(player.value, coords)];
      }
      i := j;
    }
  }

  /** The inner `for` of findLineStreaks: the coordinates of cells i .. j-1. */
  method StreakCoords(line: seq<LineCell>, i: int, j: int) returns (coords: seq<Coord>)
    requires 0 <= i <= j <= |line|
    ensures coords == CoordsOf(line, i, j)
  {
    coords := [];
    for k := i to j
      invariant coords == CoordsOf(line, i, k)
    {
      CoordsOfSnoc(line, i, k);
      coords := coords + [Coord(line[k].r, line[k].c)];
    }
  }

  /** The sum of the points of p's streaks among sps. */
  function PointsOf(sps: seq<Span>, p: Player): int {
    if sps == [] then 0
    else (if sps[0].player == p then StreakPoints(sps[0].hi - sps[0].lo) else 0) + PointsOf(sps[1..], p)
  }

  function SpanScores(sps: seq<Span>): Scores {
    Scores(PointsOf(sps, Rouge), PointsOf(sps, Bleu), PointsOf(sps, Vert))
  }

  /** What scoreLine adds to the totals for one line of owners. */
  function LineScores(o: seq<Option<Player>>): Scores {
    SpanScores(Spans(o))
  }

  lemma {:induction false} PointsOfHead(head: seq<Span>, rest: seq<Span>, p: Player)
    requires |head| <= 1
    ensures PointsOf(head + rest, p) == PointsOf(head, p) + PointsOf(rest, p)
  {
    if head != [] {
      assert (head + rest)[1..] == rest;
    } else {
      assert head + rest == rest;
    }
  }

  /** The points of p from position i on: those of the run starting at i, then the rest. */
  lemma PointsOfStep(o: seq<Option<Player>>, i: nat, p: Player)
    requires i < |o| && o[i].Some?
    ensures var j := RunEnd(o, i, o[i]);
      PointsOf(SpansFrom(o, i), p) == (if j - i >= 3 && o[i].value == p then StreakPoints(j - i) else 0) + PointsOf(SpansFrom(o, j), p)
  {
    var j := RunEnd(o, i, o[i]);
    SpansFromStep(o, i);
    var head := if j - i >= 3 then [Span(o[i].value, i, j)] else [];
    PointsOfHead(head, SpansFrom(o, j), p);
  }

  /** What scoreLine still has to add from position i on, for every player. */
  predicate ScoredUpTo(line: seq<Option<Player>>, i: nat, scores: Scores)
    requires i <= |line|
  {
    forall p :: scores.Get(p) + PointsOf(SpansFrom(line, i), p) == LineScores(line).Get(p)
  }

  /** Adding the points of the run that starts at i keeps ScoredUpTo, now from the end of the run. */
  lemma ScoredStep(line: seq<Option<Player>>, i: nat, before: Scores, after: Scores)
    requires i < |line| && line[i].Some? && ScoredUpTo(line, i, before)
    requires var j := RunEnd(line, i, line[i]);
      forall p :: after.Get(p) == before.Get(p) + (if j - i >= 3 && line[i].value == p then StreakPoints(j - i) else 0)
    ensures ScoredUpTo(line, RunEnd(line, i, line[i]), after)
  {
    forall p
      ensures after.Get(p) + PointsOf(SpansFrom(line, RunEnd(line, i, line[i])), p) == LineScores(line).Get(p)
    {
      PointsOfStep(line, i, p);
    }
  }

  /** scoreLine: the same scan, adding POINTS_MAP[min(length, 5)] per streak of length at least 3. */
  method ScoreLine(line: seq<Option<Player>>) returns (scores: Scores)
    ensures scores == LineScores(line)
  {
    scores := ZeroScores;
    var i := 0;
    while i < |line|
      invariant 0 <= i <= |line|
      invariant ScoredUpTo(line, i, scores)
    {
      var player := line[i];
      if player.None? {
        i := i + 1;
        continue;
      }
      ghost var before := scores;
      var j := RunStop(line, i);
      scores := AwardStreak(scores, player.value, j - i);
      ScoredStep(line, i, before, scores);
      i := j;
    }
    ScoresEq(scores, LineScores(line));
  }

  /** The inner `while` of scoreLine: j advances past the cells owned like cell i. */
  method RunStop(line: seq<Option<Player>>, i: nat) returns (j: nat)
    requires i < |line|
    ensures j == RunEnd(line, i, line[i])
  {
    var player := line[i];
    j := i;
    while j < |line| && line[j] == player
      invariant i <= j <= |line|
      invariant RunEnd(line, j, player) == RunEnd(line, i, player)
    {
      j := j + 1;
    }
    RunEndStop(line, j, player);
  }

  /** The body of scoreLine's `if (streakLength >= 3)`: p earns POINTS_MAP[min(length, 5)]. */
  method AwardStreak(scores: Scores, p: Player, streakLength: int) returns (after: Scores)
    ensures forall q :: after.Get(q) == scores.Get(q) + (if streakLength >= 3 && p == q then StreakPoints(streakLength) else 0)
  {
    after := scores;
    if streakLength >= 3 {
      var key := if streakLength < 5 then streakLength else 5;
      if key in PointsMap && PointsMap[key] != 0 {
        var points := PointsMap[key];
        after := scores.Set(p, scores.Get(p) + points);
      }
    }
  }

  /** The sum of POINTS_MAP[min(|coords|, 5)] over the lines of p. */
  function LinePoints(ls: seq<WinningLine>, p: Player): int {
    if ls == [] then 0
    else (if ls[0].player == p then StreakPoints(|ls[0].coords|) else 0) + LinePoints(ls[1..], p)
  }

  lemma {:induction false} LinePointsAppend(a: seq<WinningLine>, b: seq<WinningLine>, p: Player)
    ensures LinePoints(a + b, p) == LinePoints(a, p) + LinePoints(b, p)
    decreases |a|
  {
    if a == [] {
      assert a + b == b;
    } else {
      assert (a + b)[1..] == a[1..] + b;
      LinePointsAppend(a[1..], b, p);
    }
  }

  lemma {:induction false} ToLinesPoints(line: seq<LineCell>, sps: seq<Span>, p: Player)
    requires SpansIn(sps, |line|)
    ensures LinePoints(ToLines(line, sps), p) == PointsOf(sps, p)
    decreases |sps|
  {
    if sps != [] {
      assert ToLines(line, sps)[1..] == ToLines(line, sps[1..]);
      ToLinesPoints(line, sps[1..], p);
    }
  }

  /** Scoring one line and summing the points of the lines it reports agree. */
  lemma StreakLinesPoints(line: seq<LineCell>, p: Player)
    ensures LinePoints(StreakLines(line), p) == LineScores(Owners(line)).Get(p)
  {
    ToLinesPoints(line, Spans(Owners(line)), p);
  }

  /** Every coordinate of l is that of a cell of the traversal owned by l's player. */
  predicate OwnedAlong(line: seq<LineCell>, l: WinningLine) {
    forall k :: 0 <= k < |l.coords| ==> OwnedCell(line, l.player, l.coords[k])
  }

  /** x is the coordinate of a cell of the traversal owned by p. */
  predicate OwnedCell(line: seq<LineCell>, p: Player, x: Coord) {
    exists i :: 0 <= i < |line| && line[i].owner == Some(p) && x == Coord(line[i].r, line[i].c)
  }

  /** The line of a maximal run of length at least 3 has at least 3 cells, each owned by its player. */
  lemma RunLineShape(line: seq<LineCell>, sp: Span)
    requires sp.hi - sp.lo >= 3 && IsMaximalRun(Owners(line), sp.player, sp.lo, sp.hi)
    ensures |LineOf(line, sp).coords| >= 3 && OwnedAlong(line, LineOf(line, sp))
  {
    var l := LineOf(line, sp);
    forall k | 0 <= k < |l.coords|
      ensures OwnedCell(line, l.player, l.coords[k])
    {
      var i := sp.lo + k;
      assert Owners(line)[i] == Some(sp.player);
      assert line[i].owner == Some(l.player) && l.coords[k] == Coord(line[i].r, line[i].c);
    }
  }

  /** Every reported line of one traversal has at least 3 cells, each a cell of the traversal owned by the line's player. */
  lemma StreakLinesShape(line: seq<LineCell>)
    ensures forall l :: l in StreakLines(line) ==> |l.coords| >= 3 && OwnedAlong(line, l)
  {
    var o := Owners(line);
    SpansAreMaximalRuns(o);
    var ls := StreakLines(line);
    forall l | l in ls
      ensures |l.coords| >= 3 && OwnedAlong(line, l)
    {
      var m :| 0 <= m < |ls| && ls[m] == l;
      var sp := Spans(o)[m];
      assert sp in Spans(o);
      ToLinesAt(line, Spans(o), m);
      RunLineShape(line, sp);
    }
  }
}
