# Công Đức Điện Tử — a verified model of the game core

"Công Đức Điện Tử" ("electronic merit") is a Tk desktop toy built around a
neon wooden fish. This project models its logic in Dafny:

- **The challenge version** (`cong_duc_dien_tu12.py`). The player taps the
  fish (an ellipse) to earn points before a per-level clock runs out. The
  fish jumps to a random place on a level-dependent rhythm. A hit raises a
  combo, and every fifth hit in a row earns a bonus point. Reaching the
  level's target moves to the next level at once. A miss costs two seconds.
  When a countdown step finds the clock at zero, or a miss brings it there,
  the game stops.
- **The plain counter** (`cong_duc_dien_tu1.py`). Every tap adds one merit and
  shows one of three status messages. A timer cycles the glow rings through a
  five-colour palette, and floating "+1" texts fade through integer colour
  arithmetic.

Layout:

- `int_math.dfy` (module `IntMath`): Python's two-argument `max`.
- `level_config.dfy` (module `LevelConfig`): the difficulty curve.
- `target_geometry.dfy` (module `TargetGeometry`): the point-in-ellipse test
  in exact integer form, and the range a new centre is drawn from.
- `challenge_rules.dfy` (module `ChallengeRules`): the game fields as a value
  (`Session`). Each operation of the game is a function on it. The module also
  holds the invariant every reachable state satisfies, and lemmas about single
  steps, event sequences and two concrete play-throughs.
- `challenge_game.dfy` (module `ChallengeGame`): the game object as a class
  whose fields are updated in place. Each method is proved to move the fields
  exactly as the matching `ChallengeRules` function does. Each method also
  says where the target centre can be afterwards.
- `hex_format.dfy` (module `HexFormat`): Python's `format(v, "02x")` and its
  inverse.
- `wooden_fish.dfy` (module `WoodenFish`): the plain counter's status rule,
  glow phase, ring colours and fade colours, and its window object as a class.

Behaviours of the source that the model keeps:

- **Immediate first tick.** Starting a level runs one countdown step before
  returning. A new game therefore shows 19 seconds, not 20, and a level's
  clock is always below its budget while the game runs.
- **Two placements per level start.** The target is placed once by
  `start_level` and again by the first run of the movement callback.
- **Unreachable level clear on time-up.** The time-up handler would still clear a level whose
  target is met. This branch is never taken: a hit that reaches the target
  clears the level at once (`TimeUpEndsGame`).
- **Level 1 clears on the eighth hit.** Eight straight hits from a fresh start
  earn 1+1+1+1+2+1+1+1 = 9 points and clear level 1 at once. A ninth hit then
  scores on level 2, giving level 2 with 10 merit and a combo of 1
  (`HitStreakClearsFirstLevel`). The combo never reaches 9 on level 1.
- **Zero shown before game over.** A countdown step that brings the clock to
  0 leaves the game running (`MissesThenTimeOut`). At 0 seconds hits still
  score and can still clear the level, which starts the next level with a
  fresh clock (`HitAtZeroSecondsClearsLevel`). The game ends at the next
  countdown step or miss only if the level has not been cleared by then.

Modelling choices:

- Python's `//` and `%` with a positive divisor are floor operations. For a
  positive divisor they agree with Dafny's Euclidean `/` and `%`, so the
  difficulty curve and the combo rule are valid for every integer.
- `is_hit` divides as floating point. The model uses the cross-multiplied
  integer test. The contract of `IsHit` states that it equals the source's
  formula over the reals.
- `random.randint(a, b)` becomes an arbitrary value in `[a, b]`. The canvas
  size (`winfo_width`, `winfo_height`) is a parameter of every operation that
  can move the target.

## Model

| member | source | states |
|---|---|---|
| LevelConfig.LevelTarget | cong_duc_dien_tu12.py:107-108 | the target is a multiple of 3 and at least 9 from level 1 on |
| LevelConfig.LevelTime | cong_duc_dien_tu12.py:110-111 | the time budget is never below 10 s, at most 20 s for levels from 0, and exactly 10 s precisely from level 20 |
| LevelConfig.MoveIntervalMs | cong_duc_dien_tu12.py:113-114 | the move interval is never below 260 ms, at most 900 ms for levels from 0, and exactly 260 ms precisely from level 11 |
| LevelConfig.LevelTargetIncreasing | cong_duc_dien_tu12.py:107-108 | a higher level asks for at least 3 more points |
| LevelConfig.LevelTimeNonIncreasing | cong_duc_dien_tu12.py:110-111 | the time budget never grows with the level |
| LevelConfig.MoveIntervalNonIncreasing | cong_duc_dien_tu12.py:113-114 | the move interval never grows with the level |
| TargetGeometry.IsHit | cong_duc_dien_tu12.py:276-280 | for positive half-axes, the integer test holds exactly when ((x-cx)/rx)² + ((y-cy)/ry)² ≤ 1 over the reals (closed ellipse) |
| TargetGeometry.CrossMultiplied | cong_duc_dien_tu12.py:278-280 | multiplying the real ellipse test by rx²·ry² > 0 keeps its outcome, so the division-free test decides the same points |
| TargetGeometry.HitWithinBoundingBox | cong_duc_dien_tu12.py:276-280 | every hit lies within rx of the centre horizontally and within ry vertically |
| TargetGeometry.AxisEndsAreHits | cong_duc_dien_tu12.py:276-280 | the centre and the four ends of the axes count as hits (the boundary is included) |
| TargetGeometry.CentreHigh | cong_duc_dien_tu12.py:182-190 | the upper end of the centre range is never below the lower end, so `randint` always has a value to return |
| TargetGeometry.AllowedCentreKeepsGap | cong_duc_dien_tu12.py:182-190 | when the floored canvas leaves room for both margins, a picked centre keeps the ellipse at least 30 units from both edges |
| TargetGeometry.PositionKeepsBodyInside | cong_duc_dien_tu12.py:182-190 | with the 760 x 360 floors the range is never clamped, and the fish body stays at least 30 units inside the floored canvas on both axes |
| ChallengeRules.Gain | cong_duc_dien_tu12.py:283-285 | a hit earns 2 exactly when the new combo is a multiple of 5, and 1 otherwise |
| ChallengeRules.InitialIsValid | cong_duc_dien_tu12.py:30-37 | the fields the window starts with satisfy the game invariant |
| ChallengeRules.StartLevelTicksOnce | cong_duc_dien_tu12.py:123-147 | starting a level resets score and combo, sets target and budget from the level, runs, and has already taken one second |
| ChallengeRules.StartGameResets | cong_duc_dien_tu12.py:117-120 | from any state a new game is level 1, merit 0, score 0, combo 0, target 9, 19 s left, running, and valid |
| ChallengeRules.AdvanceLevelNextLevel | cong_duc_dien_tu12.py:170-173 | advancing raises the level by exactly one, keeps the merit, resets score and combo, and takes target and time (minus the first second) from the new level |
| ChallengeRules.TimeUpEndsGame | cong_duc_dien_tu12.py:157-162 | in a valid running state time-up only stops the game; its level-clear branch is dead |
| ChallengeRules.TickCases | cong_duc_dien_tu12.py:137-147 | a countdown step does nothing when stopped, takes exactly one second (and keeps running) when time is left, and otherwise stops the game |
| ChallengeRules.TickPreservesInv | cong_duc_dien_tu12.py:137-147 | a countdown step keeps the game invariant |
| ChallengeRules.HitScores | cong_duc_dien_tu12.py:282-299 | a hit adds the gain to the merit; below the target it raises the combo by one and the level score by the gain; reaching the target moves to the next level at once |
| ChallengeRules.MissPenalises | cong_duc_dien_tu12.py:301-309 | a miss zeroes the combo, takes min(2, time left) seconds, keeps level, scores and target, and stops the game exactly when the clock reaches 0 |
| ChallengeRules.IdleTapIgnored | cong_duc_dien_tu12.py:266-269 | while the game is stopped, taps and countdown steps change no field |
| ChallengeRules.TapPreservesInv | cong_duc_dien_tu12.py:266-274 | a tap keeps the game invariant (score below target and clock below budget while running, nothing negative) |
| ChallengeRules.StepPreservesInv | cong_duc_dien_tu12.py:117-309 | every event (start, tap, countdown, move) keeps the invariant |
| ChallengeRules.RunPreservesInv | cong_duc_dien_tu12.py:117-309 | any sequence of events keeps the invariant |
| ChallengeRules.ReachableIsValid | cong_duc_dien_tu12.py:30-37 | every state reachable from the initial fields satisfies the invariant |
| ChallengeRules.StepWithoutRestartIsMonotone | cong_duc_dien_tu12.py:282-309 | no event other than the start button lowers the merit or the level |
| ChallengeRules.RunWithoutRestartIsMonotone | cong_duc_dien_tu12.py:282-309 | over any events without a restart, merit and level never decrease |
| ChallengeRules.StoppedGameIsFrozen | cong_duc_dien_tu12.py:137-139 | once stopped, no sequence of taps and timer firings changes any field until the start button |
| ChallengeRules.StreakGain | cong_duc_dien_tu12.py:283-288 | n straight hits earn between n and n + n/5 + 1 points |
| ChallengeRules.HitStreakScores | cong_duc_dien_tu12.py:282-299 | n hits in a row below the target raise the combo by n and earn n points plus one per multiple of 5 the combo passes |
| ChallengeRules.CountdownRun | cong_duc_dien_tu12.py:137-147 | n countdown steps with at least n seconds left take exactly n seconds and change nothing else |
| ChallengeRules.HitStreakClearsFirstLevel | cong_duc_dien_tu12.py:117-173 | from a new game, 8 hits give level 2 with merit 9 and 18 s; 9 hits give level 2, merit 10, score 1, combo 1 |
| ChallengeRules.SevenHitsFromStart | cong_duc_dien_tu12.py:282-299 | seven hits from a new game leave combo 7 and 8 points on level 1 |
| ChallengeRules.EighthHitClearsLevelOne | cong_duc_dien_tu12.py:282-297 | on level 1 at 8 of 9 points with combo 7, one hit starts level 2 with target 12 and 18 s, score and combo reset, one more merit |
| ChallengeRules.FirstHitOnLevelTwo | cong_duc_dien_tu12.py:282-299 | the first hit on a fresh level 2 adds one point to score and merit and sets the combo to 1 |
| ChallengeRules.HitAtZeroSecondsClearsLevel | cong_duc_dien_tu12.py:271-297 | with the clock at 0 on level 1 at 8 of 9 points, a hit starts level 2 with 18 s and still running, and the next countdown step leaves 17 s, still running |
| ChallengeRules.MissesThenTimeOut | cong_duc_dien_tu12.py:137-162 | from a new game, two misses leave 15 s; 15 countdown steps reach 0 still running; the 16th stops the game at 0 of 9 |
| ChallengeGame.Game.constructor | cong_duc_dien_tu12.py:30-43 | the fields start as level 1, all counts 0, stopped, centre (490, 330) |
| ChallengeGame.Game.RandomRepositionFish | cong_duc_dien_tu12.py:182-190 | the new centre is a value `randint` can return for the floored canvas |
| ChallengeGame.Game.StartGame | cong_duc_dien_tu12.py:117-121 | the fields become `ChallengeRules.StartGame` of the old ones, valid, with the target placed |
| ChallengeGame.Game.StartLevel | cong_duc_dien_tu12.py:123-135 | the fields become `ChallengeRules.StartLevel` of the old ones (first second already taken), with the target placed |
| ChallengeGame.Game.Tick | cong_duc_dien_tu12.py:137-147 | the fields become `ChallengeRules.Tick` of the old ones, validity is kept, and the target moves only if a level starts |
| ChallengeGame.Game.Reposition | cong_duc_dien_tu12.py:149-155 | while running the target gets a new allowed centre; when stopped it stays |
| ChallengeGame.Game.HandleTimeUp | cong_duc_dien_tu12.py:157-168 | the fields become `ChallengeRules.TimeUp` of the old ones |
| ChallengeGame.Game.AdvanceLevel | cong_duc_dien_tu12.py:170-173 | the fields become `ChallengeRules.AdvanceLevel` of the old ones, the level rises by one, and the target is placed |
| ChallengeGame.Game.OnTap | cong_duc_dien_tu12.py:266-274 | the fields become `ChallengeRules.Tap` of the old ones for the ellipse test at the old centre, and validity is kept |
| ChallengeGame.Game.HandleHit | cong_duc_dien_tu12.py:282-299 | the fields become `ChallengeRules.Hit` of the old ones |
| ChallengeGame.Game.HandleMiss | cong_duc_dien_tu12.py:301-309 | the fields become `ChallengeRules.Miss` of the old ones |
| HexFormat.LowerHexRoundTrip | cong_duc_dien_tu1.py:247-248 | the unpadded hex digits of v read back as v |
| HexFormat.LowerHexLength | cong_duc_dien_tu1.py:247-248 | the unpadded form has one digit below 16, two below 256, and at least three from 256 |
| HexFormat.Format02RoundTrip | cong_duc_dien_tu1.py:247-248 | the `02x` form reads back as v, has at least two digits, and has exactly two precisely when v < 256 |
| WoodenFish.StatusAfterTap | cong_duc_dien_tu1.py:168-173 | the "drop" message appears exactly on multiples of 30, the "calm" message exactly on multiples of 9 that are not multiples of 30, and the plain message exactly on all other totals |
| WoodenFish.ThirtyRuleWins | cong_duc_dien_tu1.py:168-173 | on multiples of 90 both rules apply and the 30-rule wins |
| WoodenFish.StatusPeriodic | cong_duc_dien_tu1.py:168-173 | the message for total + 90 equals the message for total |
| WoodenFish.RingColour | cong_duc_dien_tu1.py:204-205 | ring i gets palette entry (phase + i) mod 5, always a palette colour |
| WoodenFish.NextPhase | cong_duc_dien_tu1.py:202-203 | the phase stays in [0, 5), advances by one mod 5 when rings exist, and is unchanged without rings |
| WoodenFish.PhaseCycles | cong_duc_dien_tu1.py:202-203 | five frames with rings bring the phase back to where it was |
| WoodenFish.Fade | cong_duc_dien_tu1.py:246 | the fade is never below 60, is 255 at life 24, and never above 255 during the text's life |
| WoodenFish.FadeMonotone | cong_duc_dien_tu1.py:246 | the fade never increases as life decreases |
| WoodenFish.ShadowBlue | cong_duc_dien_tu1.py:248 | the shadow's blue is never below 40 |
| WoodenFish.TextColour | cong_duc_dien_tu1.py:247 | for 0 < life ≤ 24 the text colour is `#` + two hex digits + two hex digits + `8a`, seven characters, whose fields read back as the fade and the fade minus 25 |
| WoodenFish.ShadowColour | cong_duc_dien_tu1.py:248 | for 0 < life ≤ 24 the shadow colour is `#ff2f` + two hex digits, seven characters, whose last field reads back as the shadow's blue |
| WoodenFish.ColourComponentsInRange | cong_duc_dien_tu1.py:246-248 | for 0 < life ≤ 24 the fade lies in [60, 255], fade - 25 in [35, 230] and the shadow blue in [40, 175], so every component fits in a byte |
| WoodenFish.RingColours | cong_duc_dien_tu1.py:204-206 | the loop gives each of the rings its palette colour, in order |
| WoodenFish.Fish.constructor | cong_duc_dien_tu1.py:32-82 | the window starts with merit 0 and three rings, and its first glow frame leaves the phase at 1 |
| WoodenFish.Fish.OnTap | cong_duc_dien_tu1.py:159-173 | each tap adds exactly one merit and returns the message for the new total |
| WoodenFish.Fish.AnimateGlow | cong_duc_dien_tu1.py:200-208 | the phase moves as `NextPhase` says, and every ring gets its palette colour |

## Left out

- Widget construction, canvas drawing (`draw_fish`), `on_resize`, label
  texts and `update_hud` formatting are UI only. Status messages are an
  enumeration, not strings.
- The timer scheduling is left out: `root.after`, its delays, and the
  self-re-arming chains. `Tick` and `Reposition` are single firings applied in
  sequence. The source never cancels a chain. Each `start_level` starts a new
  countdown chain and a new movement chain beside any still alive, so after a
  level clear the clock falls by more than a second per second. The model
  does not capture this.
- `animate_glow` of the challenge version repeats the plain counter's glow
  logic. It is modelled once, in `WoodenFish`.
- Sound (`winsound`, `root.bell`) is foreign I/O.
- Hit flashes, floating texts, their jitter and movement (`flash_hit_effect`,
  `spawn_floating_text`, `animate_text_float`, the movement part of
  `animate_floating_text`) are cosmetic and random. Only the fade and colour
  arithmetic is kept.
- Floating-point rounding in `is_hit` at the ellipse boundary is left out. The
  model decides the boundary exactly.
- The `random` module is left out. A new centre is any value in the range
  `randint` is given.
- ChallengeGame.Game.RandomRepositionFish: the gap of 30 units is proved
  against the canvas size floored to 760 x 360, as the source computes it. On
  a real canvas smaller than that floor, the fish can still reach past the
  edge.
