/**
 The game object of the challenge version: the fields that `start_game`,
 `start_level`, the two timer callbacks and the tap handlers update in place.
 Every method is proved against the matching function of `ChallengeRules`
 (through `Core()`), and says where the target centre may be afterwards.

 The timers' own scheduling is not modelled: `Tick` is one firing of the
 countdown callback and `Reposition` one firing of the movement callback.
 The canvas size (`winfo_width`, `winfo_height`) is passed in by the caller,
 and the random centre is any value `random.randint` could return.
 */
module ChallengeGame {
  import opened IntMath
  import opened LevelConfig
  import TargetGeometry
  import Rules = ChallengeRules

  class Game {
    var level: int
    var totalMerit: int
    var levelScore: int
    var targetScore: int
    var timeLeft: int
    var combo: int
    var running: bool
    /** Centre of the target ellipse. */
    var cx: int
    var cy: int

    /** The game fields as a value of the rules module. */
    function Core(): Rules.Session
      reads this
    {
      Rules.Session(level, totalMerit, levelScore, targetScore, timeLeft, combo, running)
    }

    ghost predicate Valid()
      reads this
    {
      Rules.Inv(Core())
    }

    /** Is the centre one that the last reposition on a `width` x `height` canvas could pick? */
    ghost predicate Placed(width: int, height: int)
      reads this
    {
      TargetGeometry.PositionAllowed(cx, cy, width, height)
    }

    /** The fields as the game window sets them up, before any start. */
    constructor ()
      ensures Core() == Rules.Initial() && Valid()
      ensures cx == 490 && cy == 330
    {
      level, totalMerit, levelScore, targetScore := 1, 0, 0, 0;
      timeLeft, combo, running := 0, 0, false;
      cx, cy := 490, 330;
    }

    /** `random_reposition_fish`: a new centre anywhere in the allowed range. */
    method RandomRepositionFish(width: int, height: int)
      modifies this`cx, this`cy
      ensures Placed(width, height)
    {
      var w := Max(TargetGeometry.MinWidth, width);
      var h := Max(TargetGeometry.MinHeight, height);
      var marginX := TargetGeometry.CentreLow(TargetGeometry.BodyRx);
      var marginY := TargetGeometry.CentreLow(TargetGeometry.BodyRy);
      var x :| marginX <= x <= Max(marginX, w - marginX);
      var y :| marginY <= y <= Max(marginY, h - marginY);
      cx, cy := x, y;
    }

    /** `start_game`. */
    method StartGame(width: int, height: int)
      modifies this
      ensures Core() == Rules.StartGame(old(Core()))
      ensures Valid() && Placed(width, height)
    {
      level := 1;
      totalMerit := 0;
      StartLevel(false, width, height);
      Rules.StartGameResets(old(Core()));
    }

    /**
     `start_level`: reset the per-level fields, place the target, run the
     first countdown step at once, and place the target again when the
     movement callback first fires.
     */
    method StartLevel(resetTotal: bool, width: int, height: int)
      modifies this
      decreases 1, 0
      ensures Core() == Rules.StartLevel(old(Core()), resetTotal)
      ensures Placed(width, height)
    {
      if resetTotal {
        totalMerit := 0;
      }
      levelScore := 0;
      combo := 0;
      targetScore := LevelTarget(level);
      timeLeft := LevelTime(level);
      running := true;
      RandomRepositionFish(width, height);
      Tick(width, height);
      Reposition(width, height);
    }

    /** One firing of the countdown callback (`schedule_countdown`). */
    method Tick(width: int, height: int)
      modifies this
      decreases if running && timeLeft <= 0 then 1 else 0, 3
      ensures Core() == Rules.Tick(old(Core()))
      ensures old(Valid()) ==> Valid()
      ensures level == old(level) ==> cx == old(cx) && cy == old(cy)
      ensures level != old(level) ==> Placed(width, height)
    {
      ghost var before := Core();
      if Rules.Inv(before) {
        Rules.TickPreservesInv(before);
      }
      if !running {
        return;
      }
      if timeLeft <= 0 {
        HandleTimeUp(width, height);
        return;
      }
      timeLeft := timeLeft - 1;
    }

    /** One firing of the movement callback (`schedule_fish_movement`). */
    method Reposition(width: int, height: int)
      modifies this`cx, this`cy
      ensures running ==> Placed(width, height)
      ensures !running ==> cx == old(cx) && cy == old(cy)
    {
      if !running {
        return;
      }
      RandomRepositionFish(width, height);
    }

    /** `handle_time_up`. */
    method HandleTimeUp(width: int, height: int)
      modifies this
      decreases 1, 2
      ensures Core() == Rules.TimeUp(old(Core()))
      ensures level == old(level) ==> cx == old(cx) && cy == old(cy)
      ensures level != old(level) ==> Placed(width, height)
    {
      if levelScore >= targetScore {
        AdvanceLevel(width, height);
        return;
      }
      running := false;
    }

    /** `advance_level`. */
    method AdvanceLevel(width: int, height: int)
      modifies this
      decreases 1, 1
      ensures Core() == Rules.AdvanceLevel(old(Core()))
      ensures level == old(level) + 1
      ensures Placed(width, height)
    {
      level := level + 1;
      StartLevel(false, width, height);
    }

    /** `on_tap`: ignored unless the game runs; otherwise a hit or a miss of the target. */
    method OnTap(x: int, y: int, width: int, height: int)
      modifies this
      ensures Core() == Rules.Tap(old(Core()),
        TargetGeometry.IsHit(x, y, old(cx), old(cy), TargetGeometry.BodyRx, TargetGeometry.BodyRy))
      ensures old(Valid()) ==> Valid()
      ensures level == old(level) ==> cx == old(cx) && cy == old(cy)
      ensures level != old(level) ==> Placed(width, height)
    {
      ghost var before := Core();
      if !running {
        return;
      }
      var hit := TargetGeometry.IsHit(x, y, cx, cy, TargetGeometry.BodyRx, TargetGeometry.BodyRy);
      if hit {
        HandleHit(width, height);
      } else {
        HandleMiss(width, height);
      }
      if Rules.Inv(before) {
        Rules.TapPreservesInv(before, hit);
      }
    }

    /** `handle_hit`: the tap position only feeds the floating text, so it is not a parameter here. */
    method HandleHit(width: int, height: int)
      modifies this
      ensures Core() == Rules.Hit(old(Core()))
      ensures level == old(level) ==> cx == old(cx) && cy == old(cy)
      ensures level != old(level) ==> Placed(width, height)
    {
      combo := combo + 1;
      var bonus := if combo % 5 == 0 then 1 else 0;
      var gain := 1 + bonus;
      levelScore := levelScore + gain;
      totalMerit := totalMerit + gain;
      if levelScore >= targetScore {
        AdvanceLevel(width, height);
        return;
      }
    }

    /** `handle_miss`: lose the combo and two seconds; at zero, time is up at once. */
    method HandleMiss(width: int, height: int)
      modifies this
      ensures Core() == Rules.Miss(old(Core()))
      ensures level == old(level) ==> cx == old(cx) && cy == old(cy)
      ensures level != old(level) ==> Placed(width, height)
    {
      combo := 0;
      timeLeft := Max(0, timeLeft - 2);
      if timeLeft <= 0 {
        HandleTimeUp(width, height);
      }
    }
  }
}
