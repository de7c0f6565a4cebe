/**
 The difficulty curve of the challenge game: three pure integer functions of
 the level number. Python's `//` with a positive divisor is floor division,
 which agrees with Dafny's Euclidean `/` for every integer level.
 */
module LevelConfig {
  import opened IntMath

  /** Score needed to clear a level (`get_level_target`). */
  function LevelTarget(level: int): (t: int)
    ensures t % 3 == 0
    ensures level >= 1 ==> t >= 9
  {
    6 + level * 3
  }

  /** Seconds granted for a level (`get_level_time`). */
  function LevelTime(level: int): (t: int)
    ensures t >= 10
    ensures level >= 0 ==> t <= 20
    ensures t == 10 <==> level >= 20
  {
    Max(10, 20 - level / 2)
  }

  /** Milliseconds between two target moves (`get_move_interval_ms`). */
  function MoveIntervalMs(level: int): (ms: int)
    ensures ms >= 260
    ensures level >= 0 ==> ms <= 900
    ensures ms == 260 <==> level >= 11
  {
    Max(260, 900 - level * 60)
  }

  /** A higher level always asks for strictly more points. */
  lemma LevelTargetIncreasing(a: int, b: int)
    requires a < b
    ensures LevelTarget(a) + 3 <= LevelTarget(b)
  {
  }

  /** The time budget never grows with the level. */
  lemma LevelTimeNonIncreasing(a: int, b: int)
    requires a <= b
    ensures LevelTime(b) <= LevelTime(a)
  {
    assert a / 2 <= b / 2;
  }

  /** The target moves at least as often on a higher level. */
  lemma MoveIntervalNonIncreasing(a: int, b: int)
    requires a <= b
    ensures MoveIntervalMs(b) <= MoveIntervalMs(a)
  {
  }
}
