/** Level table and streak bonuses (constants.ts). */
module Constants {
  import opened Types

  datatype LevelConfig = LevelConfig(attackerRange: Range, defenderRange: Range)

  /** LEVEL_CONFIG: the factor ranges of each level. */
  function LevelConfigOf(level: Level): (cfg: LevelConfig)
    ensures 2 <= cfg.attackerRange.min <= cfg.attackerRange.max
    ensures cfg.defenderRange.min == 1 <= cfg.defenderRange.max
  {
    match level
    case 1 => LevelConfig(Range(2, 10), Range(1, 10))
    case 2 => LevelConfig(Range(6, 9), Range(1, 9))
    case 3 => LevelConfig(Range(6, 12), Range(1, 12))
  }

  /** POINTS_MAP: bonus by streak length. */
  const PointsMap: map<int, int> := map[3 := 1, 4 := 3, 5 := 10]

  /** The points a streak of length n earns: the table entry at min(n, 5), nothing when there is no entry. */
  function StreakPoints(n: int): (pts: int)
    ensures n >= 3 ==> (if n < 5 then n else 5) in PointsMap && pts == PointsMap[if n < 5 then n else 5]
    ensures n >= 3 ==> 1 <= pts <= 10
    ensures n >= 5 ==> pts == PointsMap[5]
    ensures n < 3 ==> pts == 0
  {
    var key := if n < 5 then n else 5;
    if key in PointsMap then PointsMap[key] else 0
  }

  /** The table is defined exactly at 3, 4 and 5 and strictly increasing there. */
  lemma PointsMapShape()
    ensures PointsMap.Keys == {3, 4, 5}
    ensures PointsMap[3] == 1 && PointsMap[4] == 3 && PointsMap[5] == 10
    ensures forall m, n :: m in PointsMap && n in PointsMap && m < n ==> PointsMap[m] < PointsMap[n]
  {
  }
}
