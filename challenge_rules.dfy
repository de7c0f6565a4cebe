/**
 The level-based challenge game as a pure state machine over the integer
 fields of the game object. Each function here is the specification of one
 method of `ChallengeGame.Game`; the lemmas state what the game promises.

 The chain start level -> first countdown step -> time-up -> advance level ->
 start level is kept as mutual recursion; it terminates because a freshly
 started level always has at least ten seconds, so its first countdown step
 is a plain decrement.
 */
module ChallengeRules {
  import opened IntMath
  import opened LevelConfig

  /** The game fields: `level`, `total_merit`, `level_score`, `target_score`, `time_left`, `combo`, `game_running`. */
  datatype Session = Session(
    level: int,
    totalMerit: int,
    levelScore: int,
    targetScore: int,
    timeLeft: int,
    combo: int,
    running: bool)

  /** The values the game object starts with, before the first start. */
  function Initial(): Session
  {
    Session(1, 0, 0, 0, 0, 0, false)
  }

  /** Points earned by a hit that raised the combo to `combo`: a bonus point on every fifth. */
  function Gain(combo: int): (g: int)
    ensures g == 2 <==> combo % 5 == 0
    ensures g == 1 <==> combo % 5 != 0
  {
    1 + (if combo % 5 == 0 then 1 else 0)
  }

  /**
   `start_level`: fresh per-level fields, then the countdown step that the
   source runs synchronously before returning.
   */
  function StartLevel(s: Session, resetTotal: bool): Session
    decreases 1, 0
  {
    var armed := s.(
      totalMerit := if resetTotal then 0 else s.totalMerit,
      levelScore := 0,
      combo := 0,
      targetScore := LevelTarget(s.level),
      timeLeft := LevelTime(s.level),
      running := true);
    Tick(armed)
  }

  /** One firing of the countdown (`schedule_countdown`, without the re-arming). */
  function Tick(s: Session): Session
    decreases if s.running && s.timeLeft <= 0 then 1 else 0, 3
  {
    if !s.running then s
    else if s.timeLeft <= 0 then TimeUp(s)
    else s.(timeLeft := s.timeLeft - 1)
  }

  /** `handle_time_up`: a reached target still clears the level, otherwise the game stops. */
  function TimeUp(s: Session): Session
    decreases 1, 2
  {
    if s.levelScore >= s.targetScore then AdvanceLevel(s)
    else s.(running := false)
  }

  /** `advance_level`. */
  function AdvanceLevel(s: Session): Session
    decreases 1, 1
  {
    StartLevel(s.(level := s.level + 1), false)
  }

  /** `start_game`: back to level 1 with no merit. */
  function StartGame(s: Session): Session
  {
    StartLevel(s.(level := 1, totalMerit := 0), false)
  }

  /** `handle_hit`: raise the combo, score the gain, clear the level when the target is reached. */
  function Hit(s: Session): Session
  {
    var combo := s.combo + 1;
    var gain := Gain(combo);
    var scored := s.(combo := combo, levelScore := s.levelScore + gain, totalMerit := s.totalMerit + gain);
    if scored.levelScore >= scored.targetScore then AdvanceLevel(scored) else scored
  }

  /** `handle_miss`: break the combo, lose two seconds (never below zero), time up at zero. */
  function Miss(s: Session): Session
  {
    var penalised := s.(combo := 0, timeLeft := Max(0, s.timeLeft - 2));
    if penalised.timeLeft <= 0 then TimeUp(penalised) else penalised
  }

  /** `on_tap`, given whether the tap fell inside the target. */
  function Tap(s: Session, hit: bool): Session
  {
    if !s.running then s
    else if hit then Hit(s)
    else Miss(s)
  }

  /**
   What holds in every state the game can reach. While running, the level
   score is below the target (a hit that reaches it clears the level at once)
   and the clock is below the level's budget (the first second is taken at
   level start).
   */
  predicate Inv(s: Session)
  {
    && s.level >= 1
    && 0 <= s.combo <= s.levelScore <= s.totalMerit
    && s.timeLeft >= 0
    && (s.running ==>
          && s.levelScore < s.targetScore
          && s.targetScore == LevelTarget(s.level)
          && s.timeLeft < LevelTime(s.level))
  }

  lemma InitialIsValid()
    ensures Inv(Initial())
  {
  }

  /** Starting a level takes its first second at once. */
  lemma StartLevelTicksOnce(s: Session, resetTotal: bool)
    ensures StartLevel(s, resetTotal) == s.(
      totalMerit := if resetTotal then 0 else s.totalMerit,
      levelScore := 0,
      combo := 0,
      targetScore := LevelTarget(s.level),
      timeLeft := LevelTime(s.level) - 1,
      running := true)
  {
  }

  /** Whatever came before, a new game is level 1 with target 9 and 19 seconds left. */
  lemma StartGameResets(s: Session)
    ensures var r := StartGame(s);
      && r.level == 1 && r.totalMerit == 0 && r.levelScore == 0 && r.targetScore == 9
      && r.timeLeft == 19 && r.combo == 0 && r.running
    ensures Inv(StartGame(s))
  {
    StartLevelTicksOnce(s.(level := 1, totalMerit := 0), false);
  }

  /** Advancing raises the level by one, keeps the merit, and restarts the per-level fields. */
  lemma AdvanceLevelNextLevel(s: Session)
    ensures AdvanceLevel(s) == s.(
      level := s.level + 1,
      levelScore := 0,
      combo := 0,
      targetScore := LevelTarget(s.level + 1),
      timeLeft := LevelTime(s.level + 1) - 1,
      running := true)
  {
    var next := s.(level := s.level + 1);
    assert AdvanceLevel(s) == StartLevel(next, false);
    StartLevelTicksOnce(next, false);
  }

  /** The "level cleared" branch of time-up is dead in every reachable running state. */
  lemma TimeUpEndsGame(s: Session)
    requires Inv(s) && s.running
    ensures TimeUp(s) == s.(running := false)
  {
  }

  /** The three cases of a countdown step. */
  lemma TickCases(s: Session)
    requires Inv(s)
    ensures !s.running ==> Tick(s) == s
    ensures s.running && s.timeLeft > 0 ==> Tick(s) == s.(timeLeft := s.timeLeft - 1)
    ensures s.running && s.timeLeft <= 0 ==> Tick(s) == s.(running := false)
  {
    if s.running && s.timeLeft <= 0 {
      TimeUpEndsGame(s);
    }
  }

  lemma TickPreservesInv(s: Session)
    requires Inv(s)
    ensures Inv(Tick(s))
  {
    TickCases(s);
  }

  /**
   A hit raises the merit by the gain in every case; without reaching the
   target it also raises the combo by one and the level score by the gain,
   and reaching the target moves to the next level at once.
   */
  lemma HitScores(s: Session)
    ensures var g := Gain(s.combo + 1);
      && Hit(s).totalMerit == s.totalMerit + g
      && (s.levelScore + g < s.targetScore ==>
            Hit(s) == s.(combo := s.combo + 1, levelScore := s.levelScore + g, totalMerit := s.totalMerit + g))
      && (s.levelScore + g >= s.targetScore ==>
            Hit(s) == s.(
              level := s.level + 1,
              totalMerit := s.totalMerit + g,
              levelScore := 0,
              combo := 0,
              targetScore := LevelTarget(s.level + 1),
              timeLeft := LevelTime(s.level + 1) - 1,
              running := true))
  {
    var g := Gain(s.combo + 1);
    AdvanceLevelNextLevel(s.(combo := s.combo + 1, levelScore := s.levelScore + g, totalMerit := s.totalMerit + g));
  }

  /**
   A miss during a valid running game breaks the combo, takes min(2, time left)
   seconds, leaves level and scores alone, and ends the game exactly when the
   clock reaches zero.
   */
  lemma MissPenalises(s: Session)
    requires Inv(s) && s.running
    ensures Miss(s).combo == 0
    ensures Miss(s).timeLeft == Max(0, s.timeLeft - 2)
    ensures s.timeLeft - Miss(s).timeLeft == if s.timeLeft < 2 then s.timeLeft else 2
    ensures Miss(s).level == s.level && Miss(s).levelScore == s.levelScore
    ensures Miss(s).totalMerit == s.totalMerit && Miss(s).targetScore == s.targetScore
    ensures Miss(s).running <==> Miss(s).timeLeft > 0
  {
    var penalised := s.(combo := 0, timeLeft := Max(0, s.timeLeft - 2));
    if penalised.timeLeft <= 0 {
      TimeUpEndsGame(penalised);
    }
  }

  /** A tap outside a running game changes nothing. */
  lemma IdleTapIgnored(s: Session, hit: bool)
    requires !s.running
    ensures Tap(s, hit) == s && Tick(s) == s
  {
  }

  lemma TapPreservesInv(s: Session, hit: bool)
    requires Inv(s)
    ensures Inv(Tap(s, hit))
  {
    if s.running {
      if hit {
        HitScores(s);
      } else {
        MissPenalises(s);
      }
    }
  }

  /** The inputs the game reacts to: the start button, a tap, and the two timers firing. */
  datatype Event = StartPressed | Tapped(hit: bool) | CountdownFired | MoveFired

  /** One event applied to the game fields; moving the target leaves them alone. */
  function Step(s: Session, e: Event): Session
  {
    match e
    case StartPressed => StartGame(s)
    case Tapped(hit) => Tap(s, hit)
    case CountdownFired => Tick(s)
    case MoveFired => s
  }

  /** The game fields after a sequence of events, processed one at a time. */
  function Run(s: Session, es: seq<Event>): Session
    decreases |es|
  {
    if es == [] then s else Run(Step(s, es[0]), es[1..])
  }

  lemma StepPreservesInv(s: Session, e: Event)
    requires Inv(s)
    ensures Inv(Step(s, e))
  {
    match e
    case StartPressed => StartGameResets(s);
    case Tapped(hit) => TapPreservesInv(s, hit);
    case CountdownFired => TickPreservesInv(s);
    case MoveFired =>
  }

  lemma {:induction false} RunPreservesInv(s: Session, es: seq<Event>)
    requires Inv(s)
    ensures Inv(Run(s, es))
    decreases |es|
  {
    if es != [] {
      StepPreservesInv(s, es[0]);
      RunPreservesInv(Step(s, es[0]), es[1..]);
    }
  }

  /** Every state reachable from the initial one satisfies the invariant. */
  lemma ReachableIsValid(es: seq<Event>)
    ensures Inv(Run(Initial(), es))
  {
    RunPreservesInv(Initial(), es);
  }

  /** Only the start button lowers the merit or the level. */
  lemma StepWithoutRestartIsMonotone(s: Session, e: Event)
    requires e != StartPressed
    ensures Step(s, e).totalMerit >= s.totalMerit
    ensures Step(s, e).level >= s.level
  {
    match e
    case Tapped(hit) =>
      if s.running {
        if hit {
          HitScores(s);
        } else {
          var penalised := s.(combo := 0, timeLeft := Max(0, s.timeLeft - 2));
          AdvanceLevelNextLevel(penalised);
        }
      }
    case CountdownFired =>
      if s.running && s.timeLeft <= 0 && s.levelScore >= s.targetScore {
        assert Step(s, e) == Tick(s) == TimeUp(s) == AdvanceLevel(s);
        AdvanceLevelNextLevel(s);
      } else if s.running && s.timeLeft <= 0 {
        assert Step(s, e) == Tick(s) == TimeUp(s) == s.(running := false);
      } else {
        assert Step(s, e) == Tick(s);
      }
    case MoveFired =>
  }

  lemma {:induction false} RunWithoutRestartIsMonotone(s: Session, es: seq<Event>)
    requires forall i :: 0 <= i < |es| ==> es[i] != StartPressed
    ensures Run(s, es).totalMerit >= s.totalMerit
    ensures Run(s, es).level >= s.level
    decreases |es|
  {
    if es != [] {
      StepWithoutRestartIsMonotone(s, es[0]);
      RunWithoutRestartIsMonotone(Step(s, es[0]), es[1..]);
    }
  }

  /** Once the game has stopped, nothing but the start button changes any field. */
  lemma {:induction false} StoppedGameIsFrozen(s: Session, es: seq<Event>)
    requires !s.running
    requires forall i :: 0 <= i < |es| ==> es[i] != StartPressed
    ensures Run(s, es) == s
    decreases |es|
  {
    if es != [] {
      assert Step(s, es[0]) == s;
      StoppedGameIsFrozen(s, es[1..]);
    }
  }

  /** Processing two event sequences one after the other is processing their concatenation. */
  lemma {:induction false} RunAppend(s: Session, a: seq<Event>, b: seq<Event>)
    ensures Run(s, a + b) == Run(Run(s, a), b)
    decreases |a|
  {
    if a != [] {
      assert (a + b)[0] == a[0] && (a + b)[1..] == a[1..] + b;
      RunAppend(Step(s, a[0]), a[1..], b);
    } else {
      assert a + b == b;
    }
  }

  /** `n` taps in a row that all hit (or all miss). */
  function Taps(n: nat, hit: bool): (es: seq<Event>)
    ensures |es| == n && forall i :: 0 <= i < n ==> es[i] == Tapped(hit)
  {
    seq(n, _ => Tapped(hit))
  }

  /** `n` firings of the countdown in a row. */
  function Ticks(n: nat): (es: seq<Event>)
    ensures |es| == n && forall i :: 0 <= i < n ==> es[i] == CountdownFired
  {
    seq(n, _ => CountdownFired)
  }

  /** Points earned by `n` straight hits when the combo stood at `combo` before them. */
  function StreakGain(combo: nat, n: nat): (g: int)
    ensures n <= g <= n + n / 5 + 1
  {
    n + (combo + n) / 5 - combo / 5
  }

  /**
   A run of `n` hits that stays below the target raises the combo by `n` and
   earns `n` points plus one bonus for every multiple of five the combo passes.
   */
  lemma {:induction false} HitStreakScores(s: Session, n: nat)
    requires s.running && s.combo >= 0
    requires s.levelScore + StreakGain(s.combo, n) < s.targetScore
    ensures var g := StreakGain(s.combo, n);
      Run(s, Taps(n, true)) == s.(combo := s.combo + n, levelScore := s.levelScore + g, totalMerit := s.totalMerit + g)
    decreases n
  {
    if n == 0 {
      assert Taps(0, true) == [];
    } else {
      var g1 := Gain(s.combo + 1);
      var next := s.(combo := s.combo + 1, levelScore := s.levelScore + g1, totalMerit := s.totalMerit + g1);
      assert g1 + StreakGain(s.combo + 1, n - 1) == StreakGain(s.combo, n);
      assert StreakGain(s.combo + 1, n - 1) >= 0;
      assert Step(s, Tapped(true)) == next by { HitScores(s); }
      assert Taps(n, true) == [Tapped(true)] + Taps(n - 1, true);
      RunAppend(s, [Tapped(true)], Taps(n - 1, true));
      HitStreakScores(next, n - 1);
    }
  }

  /** While the clock is above `n`, `n` countdown steps take exactly `n` seconds and nothing else. */
  lemma {:induction false} CountdownRun(s: Session, n: nat)
    requires s.running && s.timeLeft >= n
    ensures Run(s, Ticks(n)) == s.(timeLeft := s.timeLeft - n)
    decreases n
  {
    if n == 0 {
      assert Ticks(0) == [];
    } else {
      var next := s.(timeLeft := s.timeLeft - 1);
      assert Step(s, CountdownFired) == next;
      assert Ticks(n) == [CountdownFired] + Ticks(n - 1);
      RunAppend(s, [CountdownFired], Ticks(n - 1));
      CountdownRun(next, n - 1);
    }
  }

  /** A single tap as a one-event run. */
  lemma RunOneTap(s: Session, hit: bool)
    ensures Run(s, Taps(1, hit)) == Step(s, Tapped(hit))
  {
    assert Taps(1, hit) == [Tapped(hit)];
  }

  /** Seven hits from a new game: combo 7, eight points (the fifth hit earns two). */
  lemma SevenHitsFromStart(s: Session)
    ensures Run(StartGame(s), Taps(7, true)) == StartGame(s).(combo := 7, levelScore := 8, totalMerit := 8)
  {
    StartGameResets(s);
    assert StreakGain(0, 7) == 8;
    HitStreakScores(StartGame(s), 7);
  }

  /** On level 1 with 8 of 9 points and combo 7, a hit reaches the target and starts level 2. */
  lemma EighthHitClearsLevelOne(t: Session)
    requires t.level == 1 && t.levelScore == 8 && t.targetScore == 9 && t.combo == 7 && t.running
    ensures Run(t, Taps(1, true)) ==
      t.(level := 2, totalMerit := t.totalMerit + 1, levelScore := 0, targetScore := 12, timeLeft := 18, combo := 0)
  {
    RunOneTap(t, true);
    HitScores(t);
  }

  /** The first hit of a fresh level 2 scores one point. */
  lemma FirstHitOnLevelTwo(t: Session)
    requires t.level == 2 && t.levelScore == 0 && t.targetScore == 12 && t.combo == 0 && t.running
    ensures Run(t, Taps(1, true)) == t.(totalMerit := t.totalMerit + 1, levelScore := 1, combo := 1)
  {
    RunOneTap(t, true);
    HitScores(t);
  }

  /**
   From a fresh start, seven hits earn 8 points (one combo bonus at the fifth),
   the eighth reaches the level-1 target of 9 and moves to level 2 at once, and
   a ninth hit scores on level 2: level 2, merit 10, one point towards 12.
   */
  lemma HitStreakClearsFirstLevel(s: Session)
    ensures var r := Run(StartGame(s), Taps(8, true));
      && r.level == 2 && r.totalMerit == 9 && r.levelScore == 0 && r.targetScore == 12
      && r.timeLeft == 18 && r.combo == 0 && r.running
    ensures var r := Run(StartGame(s), Taps(9, true));
      && r.level == 2 && r.totalMerit == 10 && r.levelScore == 1 && r.targetScore == 12
      && r.timeLeft == 18 && r.combo == 1 && r.running
  {
    var s0 := StartGame(s);
    StartGameResets(s);
    SevenHitsFromStart(s);
    var s7 := Run(s0, Taps(7, true));
    EighthHitClearsLevelOne(s7);
    var s8 := Run(s7, Taps(1, true));
    FirstHitOnLevelTwo(s8);
    assert Taps(8, true) == Taps(7, true) + Taps(1, true);
    RunAppend(s0, Taps(7, true), Taps(1, true));
    assert Taps(9, true) == Taps(8, true) + Taps(1, true);
    RunAppend(s0, Taps(8, true), Taps(1, true));
  }

  /**
   At 0 seconds a running game still scores: a hit that reaches the target
   starts the next level, and the following countdown step only takes a
   second from the new level's clock.
   */
  lemma HitAtZeroSecondsClearsLevel(t: Session)
    requires t.level == 1 && t.levelScore == 8 && t.targetScore == 9
    requires t.timeLeft == 0 && t.combo == 0 && t.running
    ensures Run(t, Taps(1, true)) ==
      t.(level := 2, totalMerit := t.totalMerit + 1, levelScore := 0, targetScore := 12, timeLeft := 18)
    ensures Run(t, Taps(1, true) + Ticks(1)) ==
      t.(level := 2, totalMerit := t.totalMerit + 1, levelScore := 0, targetScore := 12, timeLeft := 17)
  {
    RunOneTap(t, true);
    HitScores(t);
    var next := Run(t, Taps(1, true));
    RunAppend(t, Taps(1, true), Ticks(1));
    CountdownRun(next, 1);
  }

  /**
   From a fresh start, two misses leave 15 seconds and no combo; fifteen
   countdown steps bring the clock to 0 with the game still running, and the
   next step ends the game at 0 of 9 points.
   */
  lemma MissesThenTimeOut(s: Session)
    ensures Run(StartGame(s), Taps(2, false)) == StartGame(s).(timeLeft := 15)
    ensures Run(StartGame(s), Taps(2, false) + Ticks(15)) == StartGame(s).(timeLeft := 0)
    ensures Run(StartGame(s), Taps(2, false) + Ticks(16)) == StartGame(s).(timeLeft := 0, running := false)
  {
    var s0 := StartGame(s);
    StartGameResets(s);
    var s1 := s0.(timeLeft := 17);
    var s2 := s0.(timeLeft := 15);
    var s17 := s0.(timeLeft := 0);
    assert Step(s0, Tapped(false)) == s1 by { MissPenalises(s0); }
    assert Step(s1, Tapped(false)) == s2 by { MissPenalises(s1); }
    assert Taps(2, false) == [Tapped(false)] + [Tapped(false)];
    RunAppend(s0, [Tapped(false)], [Tapped(false)]);
    CountdownRun(s2, 15);
    RunAppend(s0, Taps(2, false), Ticks(15));
    assert Run(s17, Ticks(1)) == s17.(running := false) by {
      TickCases(s17);
      assert Step(s17, CountdownFired) == s17.(running := false);
    }
    assert Taps(2, false) + Ticks(16) == (Taps(2, false) + Ticks(15)) + Ticks(1);
    RunAppend(s0, Taps(2, false) + Ticks(15), Ticks(1));
  }
}
