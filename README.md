# Chase game rules in Dafny

This project models the simulation core of a small pygame chase game (`main.py`).
The player steers a ball with the mouse. An AI ball either pursues the player
or wanders on its own, and a lead flag, redrawn at random intervals, decides
which. The game is lost when the two balls touch, or when they drift farther
apart than a threshold that shrinks over the first two minutes. The score grows
with a speed multiplier that ramps up over time.

The model has two modules:

- `Rules` (`rules.dfy`) holds the pure per-frame rules:
  - the constants;
  - the distance and speed ramps;
  - the lead-switch timer and the delay draws;
  - the pursuit step (`Pursue`) and the wander step (`move_ai_smooth` as `MoveAiSmooth`);
  - the game-over test (`check_game_over` as `CheckGameOver`);
  - score accrual.
- `Chase` (`chase.dfy`) holds the game state and how the main loop changes it:
  - the game state as a value `Game`;
  - `reset_game` as `ResetGame`;
  - the frame's event handling as a fold `OnEvents`;
  - the simulation part of a frame as `Step`, built from the phases `SwitchPhase`, `MovePhase` and `JudgePhase`;
  - the invariant `Inv`;
  - the class `GameState`, whose fields are the loop's module-level variables. Its methods update them in place as the loop does, and each method is proved equal to the functions above.

Inputs the source gets from its environment are parameters here:

- the tick count `now`;
- the frame time `dt`;
- the pointer position;
- the length of the AI-to-pointer vector, `dist`, which the source computes with a square root;
- the random draws:
  - the 0.4 coin and the randint result, as `DelayDraw`;
  - the reset heading and angular velocity, as `ResetDraws`;
  - the angular perturbation, `jitter`;
- cosine and sine, as a `Trig` value.

The predicates `IsDelayDraw`, `IsResetDraws` and `TickFits` state the ranges these inputs can take. Distances are compared squared, so that no square root is needed.

Three facts about `main.py` shape the model:

- `reset_game` sets the run clock `game_start_time` and the switch timer `last_switch_time` to the reset tick (main.py:45-46). Time before the first mouse motion therefore counts toward both ramps and toward the lead-switch timer. `WaitBeforeStartCounts` shows a game started 9 s after its reset flipping the lead in its first frame.
- The reset heading comes from `random.uniform(0, 2 * math.pi)` (main.py:32). `IsResetDraws` allows the closed interval [0, 2π].
- The score is non-decreasing only for `dt >= 0` (main.py:175), and the loop does not check that. `StepPointsNonDecreasing` assumes it through `TickFits`.

## Model

| member | source | states |
|---|---|---|
| Rules.DistSq | main.py:164-165 | a function without an ensures: the squared Euclidean distance that `distance_to` and `length` take the root of; DistSqSymmetric and CheckGameOverByDistance relate it to lengths |
| Rules.DistSqSymmetric | main.py:69 | the squared distance is the same in both directions |
| Rules.Heading | main.py:56 | a function without an ensures: the unit vector `(cos a, sin a)`; MoveAiSmoothReflects and ResetGame state where it is used |
| Rules.ElapsedSeconds | main.py:141 | elapsed seconds are non-negative whenever the clock has not run backwards since the run started |
| Rules.MaxDistance | main.py:143-146 | the threshold is exactly 150 from 120 s on, lies in [150, 300] for any non-negative elapsed time, and is never below 150 |
| Rules.MaxDistanceAtStart | main.py:143-146 | the threshold is 300 at elapsed time 0 |
| Rules.MaxDistanceAtMidpoint | main.py:143-146 | the threshold is 225 at 60 s |
| Rules.MaxDistanceAfterRamp | main.py:143-146 | the threshold is exactly 150 at 130 s |
| Rules.MaxDistanceLinear | main.py:143-146 | within [0, 120] s the threshold is linear, losing 1.25 units per second |
| Rules.MaxDistanceNonIncreasing | main.py:143-146 | the threshold never grows with elapsed time |
| Rules.SpeedMultiplier | main.py:157 | the multiplier is at most 5, at least 1 for non-negative time, exactly 5 from 80 s on and 1 + t/20 before |
| Rules.SpeedMultiplierNonDecreasing | main.py:157 | the multiplier never falls as time grows |
| Rules.AiSpeed | main.py:158 | the AI speed lies in [2, 10] for non-negative time; the body is 2.0 times the multiplier |
| Rules.AiSpeedNonDecreasing | main.py:158 | the AI speed never falls as time grows |
| Rules.IsDelayDraw | main.py:152-155 | a predicate without an ensures: the values `random.random()` and `randint` can return; DelayDrawBounds states its consequences |
| Rules.DelayRange | main.py:35-38 | the coin selects the fast range [1000, 3000] exactly when it is below 0.4, and the slow range [3000, 8000] otherwise |
| Rules.DelayDrawBounds | main.py:152-155 | every possible delay draw lies in [1000, 8000], within the range its coin selects |
| Rules.LeadSwitch | main.py:148-155 | the lead flips exactly when the time since the last flip exceeds the delay; a flip sets the timer to now and takes the new draw; without a flip the flag, timer and delay are unchanged |
| Rules.FlipsAreSpaced | main.py:148-155 | after a flip with a possible draw, the next flip needs more than 1000 ms |
| Rules.SwitchDue | main.py:148 | a predicate without an ensures: a flip is due when more than the delay has passed since the last flip; LeadSwitch and FlipsAreSpaced state its consequences |
| Rules.ScaleToLength | main.py:167 | a function without an ensures: `scale_to_length` for a nonzero vector of known length; ScaleToLengthHasLength gives its meaning |
| Rules.ScaleToLengthHasLength | main.py:167 | a vector rescaled to a length has exactly that length |
| Rules.Pursue | main.py:163-168 | a function without an ensures: the pursuit step; PursueDistances, PursueNeverOvershoots and PursueStaysWithin give its meaning |
| Rules.PursueDistances | main.py:163-168 | at distance 0 the AI stays put; at positive distance it moves min(speed, dist) toward the player, leaving max(0, dist - speed) |
| Rules.PursueNeverOvershoots | main.py:163-168 | measured as lengths, the distance moved is at most the speed and at most the gap, and the distance moved plus the distance left equals the old gap |
| Rules.PursueStaysWithin | main.py:163-168 | a pursuit step that starts within a range ends within it |
| Rules.Clamp | main.py:54 | a function without an ensures: `max(min(v, hi), lo)`; ClampIsNearest gives its meaning |
| Rules.ClampIsNearest | main.py:54 | the clamp lands in [lo, hi], keeps values inside and maps values outside to the nearer bound |
| Rules.OffFieldX | main.py:59 | a predicate without an ensures: the x-edge test on the prospective position; MoveAiSmoothReflects states its effect |
| Rules.OffFieldY | main.py:62 | a predicate without an ensures: the y-edge test on the prospective position; MoveAiSmoothReflects states its effect |
| Rules.MoveAiSmooth | main.py:51-66 | the returned angular velocity lies in [-1.5, 1.5], and the new position is the old plus the returned velocity |
| Rules.MoveAiSmoothReflects | main.py:51-66 | the heading is integrated first; the clamped, perturbed angular velocity is kept off the edges; an x-edge hit gives pi - angle, a y-edge hit gives -angle, each negating the angular velocity; with both hits, x first, the result is angle - pi with the angular velocity restored; the velocity is the turned heading times the speed |
| Rules.WanderLeavesField | main.py:56-66 | the wander step returns a position past the right edge, (800, 300) from (790, 300) at speed 10, while the heading becomes pi - angle |
| Rules.TooFar | main.py:72 | a predicate without an ensures: the too-far test on a squared distance; CheckGameOverByDistance shows it agrees with `distance > max_distance` |
| Rules.CheckGameOver | main.py:68-74 | the game is over exactly when a message is set, and the message is empty, the touched one or the too-far one |
| Rules.CheckGameOverTouching | main.py:68-71 | balls closer than 40 give the touched verdict |
| Rules.CheckGameOverByDistance | main.py:68-74 | for the Euclidean distance d: touched iff d < 40; otherwise too far iff d > max; otherwise no loss |
| Rules.Accrue | main.py:175 | points never drop for non-negative multiplier and dt, and they grow strictly when both are positive |
| Chase.PhaseOf | main.py:133-139 | a function without an ensures: the phase the two flags select; PhaseOfFlags gives its meaning |
| Chase.Inv | main.py:102-181 | a predicate without an ensures: what every reachable state satisfies; ResetGame, EventsPreserveInv and StepPreservesInv show it is kept |
| Chase.PhaseOfFlags | main.py:133-139 | under the invariant, exactly one of not started, running and over holds, as the two flags describe |
| Chase.IsResetDraws | main.py:32-38 | a predicate without an ensures: the values `random.uniform` and the delay draw can return at reset; ResetGame and ResetDrawsDelay state its consequences |
| Chase.ResetGame | main.py:31-49 | reset puts the balls at (400, 250) and (400, 350); the lead is the player's; the game is not started, not over and scores 0; both timers are the reset tick; the heading and delay are the draws; with possible draws the state satisfies the invariant and is not started |
| Chase.ResetDrawsDelay | main.py:35-38 | the first delay lies in the fast range when the coin is below 0.4, and in the slow range otherwise |
| Chase.OnEvent | main.py:118-131 | a function without an ensures: one event of the frame; the Events lemmas below give its meaning |
| Chase.OnEvents | main.py:118-131 | a function without an ensures: the frame's events in order; OnEventsAppend, EventsWhileNotOver, EventsWhileOverWithoutR, EventsRestartOnR and EventsPreserveInv give its meaning |
| Chase.OnEventsAppend | main.py:118-131 | handling two event sequences in turn equals handling their concatenation |
| Chase.EventsWhileNotOver | main.py:118-131 | while the game is not over, the events change only the started flag, which any mouse motion sets |
| Chase.EventsWhileOverWithoutR | main.py:125-131 | while the game is over, events without R change nothing |
| Chase.EventsRestartOnR | main.py:125-131 | while the game is over, the first R resets the game; afterwards only a mouse motion can start the new game |
| Chase.EventsPreserveInv | main.py:118-131 | event handling preserves the invariant |
| Chase.SwitchPhase | main.py:148-155 | a function without an ensures: LeadSwitch applied to the state's flag and timer; StepLeadSwitch gives its effect on a step |
| Chase.MovePhase | main.py:163-173 | a function without an ensures: the pursuit step while the player leads, the wander step otherwise; StepPursuitMoves, StepPursuit and StepWander give its effect on a step |
| Chase.JudgePhase | main.py:181 | a function without an ensures: the verdict of CheckGameOver stored in the state; StepJudges and StepGameOver give its effect on a step |
| Chase.Step | main.py:133-181 | a function without an ensures: the part of a frame after the events; the Step lemmas below give its meaning |
| Chase.StepFrozenUnlessRunning | main.py:133-139 | before the start and after a loss a step changes nothing |
| Chase.StepRunning | main.py:160-161 | a running step keeps the run clock and the started flag, and puts the player at the pointer |
| Chase.StepLeadSwitch | main.py:148-155 | the lead flips exactly when the game runs and the delay is exceeded; a flip sets the timer and the new delay; otherwise both stay |
| Chase.StepPointsNonDecreasing | main.py:175 | the score never drops, and it grows while running with positive dt |
| Chase.StepPursuitMoves | main.py:163-168 | when the player leads after the switch, the AI takes the pursuit step at the frame's AI speed and keeps its velocity, heading and angular velocity |
| Chase.StepPursuit | main.py:163-168 | in pursuit the AI stays put at distance 0, and at positive distance it ends max(0, dist - speed) from the player |
| Chase.StepWander | main.py:170-172 | when the AI leads after the switch, the AI takes the wander step at the frame's AI speed |
| Chase.StepJudges | main.py:181 | the game-over flag and message of a running step are the verdict on the moved balls and the current threshold |
| Chase.StepGameOver | main.py:181 | a running step ends the game with "touched" iff the moved balls are closer than 40, with "too far" iff they are not and their distance exceeds the threshold, and otherwise not at all |
| Chase.StepPreservesInv | main.py:139-181 | a step with possible inputs preserves the invariant |
| Chase.FirstFrameMovesBaseSpeed | main.py:139-168 | in a frame at the reset tick itself (elapsed 0) of a started game, with the pointer at (0, 350), 400 units left of the AI, no switch is due and the AI moves exactly 2 units toward the pointer, to (398, 350) |
| Chase.WaitBeforeStartCounts | main.py:45-46 | a game started 9 s after its reset flips the lead in its first frame, and runs at a speed multiplier of 1.45 |
| Chase.TouchingEndsGame | main.py:163-181 | an AI within 40 of the new pointer, with the player leading and no switch due, ends the game with "touched" in that step |
| Chase.GameState.constructor | main.py:102-107 | the state before the loop is the fresh reset state, game-over flag and message cleared, and it satisfies the invariant |
| Chase.GameState.Restart | main.py:127-131 | the whole state is replaced by a fresh reset |
| Chase.GameState.HandleEvents | main.py:118-131 | the loop over the frame's events leaves the state that OnEvents describes, reports whether a Quit came, and keeps the invariant |
| Chase.GameState.SwitchLead | main.py:148-155 | the in-place lead switch leaves the state that SwitchPhase describes |
| Chase.GameState.MoveAi | main.py:163-173 | the in-place AI move leaves the state that MovePhase describes |
| Chase.GameState.Score | main.py:175 | the in-place update changes only the points, as Accrue describes |
| Chase.GameState.Judge | main.py:181 | the in-place game-over test leaves the state that JudgePhase describes |
| Chase.GameState.RunStep | main.py:140-181 | one in-place running step leaves the state that Step describes |
| Chase.GameState.Advance | main.py:133-181 | the rest of the frame leaves the state that Step describes: nothing before the start or after a loss, otherwise a running step; with possible inputs it keeps the invariant |
| Chase.GameState.Frame | main.py:113-181 | one pass of the loop leaves Step applied to the state after the events; it keeps running iff no Quit came; with possible inputs it keeps the invariant |

## Left out

- Rendering is left out (main.py:76-100, 116, 134-136, 177-193): the energy field, the balls, the text and the display flip. It has no effect on the state.
- The pygame event queue, `clock.tick`, `pygame.time.get_ticks` and mouse polling are I/O. The model takes the events, `dt`, the tick count and the pointer as parameters.
- Floating-point arithmetic is out: positions and times are exact reals, so rounding is not modelled.
- `Trig` supplies cosine and sine. Nothing proved depends on their values, except the concrete hypotheses of `WanderLeavesField`.
- The square root of `Vector2.length` / `distance_to` is out. The pursuit step takes the length as `dist`, and the lemmas assume `Measured`: `dist >= 0` and `dist * dist` equals the squared distance. The game-over test compares squared distances.
- Random generation is out. Draws are parameters whose possible values `IsDelayDraw`, `IsResetDraws` and `TickFits` describe; the 40 / 60 split of the delay ranges is a frequency and is not modelled.
- `reset_game` calls `get_ticks()` twice (main.py:45-46), `last_switch_time` first. The model uses one reading for both timers, the two calls being in the same millisecond in practice. `Inv`'s conjunct `gameStartTime <= lastSwitchTime` relies on this: with a later second reading it would fail until the first flip.
- `move_ai_smooth` has a `velocity` parameter. The model drops it, because the function overwrites it before reading it (main.py:56).
- `player_pos.update` mutates a `Vector2` in place (main.py:161). The model assigns a new value, which is the same because no other name shares that vector.
- A Quit event clears `running`, and the loop then ends after the current frame. `Frame` returns that flag, and the loop around it is not modelled.
- `create_yinyang.py` is not part of this model. It only draws the background image.
- The HUD's `int(points)` and `int(max_distance)` formatting is left out, for display only.
- Chase.Step is defined for every `dist`. The pursuit properties hold only for a `dist` that `Measured` accepts.
