# jumpin-n-runner core in Dafny

A model of the game logic of **jumpin-n-runner**, a browser endless runner. A
square player runs along the ground, charges and releases jumps, and must clear
obstacles that scroll in from the right. The game gets faster and harder every
301 frames. A collision ends the run, and the best score is kept.

The model covers three classes of the game and proves properties about them:

- `Player` (`src/js/modules/Player.js`): gravity, the ground clamp, the
  charge-then-jump state machine, the bounding box and reset.
- `ObstacleManager` (`src/js/modules/Obstacle.js`): the weighted choice of an
  obstacle kind, the three obstacle records, the per-frame scroll with pass
  scoring and eviction, the difficulty-dependent spawn timer, the collision
  query and reset.
- `GameEngine` (`src/js/modules/GameEngine.js`), without its DOM and audio
  parts: start, the per-frame update (survival points, combo decay, speed ramp,
  collision and game over), the obstacle-clear scoring with combos and
  multipliers, the floating point indicators, the jump controls and the high
  score.

Layout:

| file | module | contents |
|---|---|---|
| `options.dfy` | `Options` | `Option`, for the roulette loop that may fall through and for a missing stored high score |
| `numbers.dfy` | `JsMath` | `Math.max` and `Math.min` on integers, and `Math.min` on reals |
| `player.dfy` | `PlayerPhysics` | the player's state as a `Body` value, one function per operation, and `class Player` proved against them |
| `obstacles.dfy` | `Obstacles` | obstacle records, the weighted pick, scrolling, spawn timing, collision, and `class ObstacleManager` |
| `scoring.dfy` | `Scoring` | the score/combo `Ledger`, the speed `Pace` and the `FloatingPoint` indicators as values, with their transition functions |
| `engine.dfy` | `Engine` | `class GameEngine`, whose fields are those values and whose methods are proved against those functions |

The source updates objects in place, so each class keeps the source's fields
and methods. Every method is proved to leave its object in the state a pure
function computes from the old state, for example
`State() == Fall(old(State()), GroundY(canvasHeight))`. The properties of the
game are then proved about those functions. Each class has an invariant
(`Valid`) that its methods keep. `GameEngine.ResetCombo` is the one exception:
it runs in the middle of a frame, so it only re-establishes the ledger's part.

- a player that is not jumping is upright, and the player only charges while
  not jumping;
- every obstacle rests on the ground line, and the spawn timer stays below 120;
- the multiplier is always the one the combo earns;
- the speed is always `1.5 + 0.3 × difficultyLevel`;
- every indicator has between 1 and 60 frames to live.

JavaScript numbers are modelled as `real`. Counters that only hold whole
numbers (timers, combo, difficulty, charge time) are `nat`. Each
`Math.random()` draw is a parameter `r` with `0 ≤ r < 1`. `Math.floor` is
`.Floor`. Calls into the audio system are left out. The
pass sound is returned as a count, and the big-jump effect is returned as a
flag.

"Not jumping" is not the same as "on the ground". After `reset` the player is
at y = 200, which is above the ground line on a canvas taller than 340. It then
drops with `jumping` false, and it may charge and jump during that drop
(`PlayerPhysics.ChargeDuringDrop`).

Spawning and the speed ramp:

- The spawn interval is `max(40, 100 − 5·d)` frames plus a random part of at
  most `min(60, 20 + 3·d)` frames.
- An obstacle is evicted once its left edge is at or left of x = −50.
- The speed rises when the speed timer *exceeds* 300, so once every 301 frames
  (`Scoring.RampSchedule`).

One consequence of the code is visible in the model. `addObstaclePoints` is
never called anywhere in the game, so the combo never starts. Passing an
obstacle only plays a sound. `Scoring.DecayCombo` keeps a zero combo unchanged,
and `Scoring.SurvivalPointsOnSchedule` shows that a frame earns
`(difficultyLevel + 5) / 10` points in exact arithmetic. Score therefore stays 0
for the first five difficulty levels (1505 frames). In the browser it stays 0
through level 5 (1806 frames); see "Left out".

## Model

| member | source | states |
|---|---|---|
| PlayerPhysics.Fall | src/js/modules/Player.js:21-42 | After a frame the player is never below the ground line: `y` is the smaller of the fallen position and the ground. Landing stops the fall, ends the jump and rights the player; above the ground the velocity grows by gravity. Charge time counts only while charging and not jumping, spin only while jumping, and the player invariant is kept |
| PlayerPhysics.StartCharge | src/js/modules/Player.js:137-142 | A jumping player is unchanged; otherwise charging starts from zero; position and motion untouched; invariant kept |
| PlayerPhysics.ChargeRatio | src/js/modules/Player.js:149 | The ratio is in [0, 1], is 1 exactly from 10 frames of charge on and 0 exactly with no charge |
| PlayerPhysics.JumpVelocity | src/js/modules/Player.js:153 | The jump velocity lies between −22 and −6 and hits each end exactly at ratio 1 and 0 |
| PlayerPhysics.Jump | src/js/modules/Player.js:145-173 | Already jumping: nothing changes and the ratio is 0. Otherwise the player jumps with the velocity of its charge ratio, stops charging and clears the charge; an uncharged jump has ratio 0 and the weakest velocity; invariant kept |
| PlayerPhysics.QuickJump | src/js/modules/GameEngine.js:348-356 | The quick jump is a weakest-velocity jump that drops any charge; for a player that is not jumping and has no charge time it is exactly the ordinary jump |
| PlayerPhysics.ClearCharge | src/js/modules/GameEngine.js:368-369 | Game over drops the charge and leaves the motion alone; invariant kept |
| PlayerPhysics.ChargeDuringDrop | src/js/modules/Player.js:186-195 | On a canvas at least 341 high the reset player is above the ground and not jumping; one frame of fall later it is still above the ground with a charge counted, and the jump it releases starts above the ground |
| PlayerPhysics.Player.constructor | src/js/modules/Player.js:2-19 | A new player is at rest at (100, 200) and satisfies the invariant |
| PlayerPhysics.Player.Update | src/js/modules/Player.js:21-42 | The new state is `Fall` of the old one at the canvas's ground line; invariant kept |
| PlayerPhysics.Player.StartJumpCharge | src/js/modules/Player.js:137-142 | The new state is `StartCharge` of the old one |
| PlayerPhysics.Player.ExecuteJump | src/js/modules/Player.js:145-173 | The new state and the returned charge ratio are `Jump` of the old state |
| PlayerPhysics.Player.Reset | src/js/modules/Player.js:186-195 | The player is back at rest and satisfies the invariant |
| Obstacles.Weights | src/js/modules/Obstacle.js:14-20 | Three weights, each at least 1, summing to 5, at every difficulty |
| Obstacles.RouletteFrom | src/js/modules/Obstacle.js:26-32 | When the roulette loop breaks, it breaks at an index of the table |
| Obstacles.PickTypeIndex | src/js/modules/Obstacle.js:23-32 | The loop's index is the roulette choice for `Math.random() × total` (0 when the loop falls through) |
| Obstacles.RouletteFromChoice | src/js/modules/Obstacle.js:26-32 | From any index on, the loop breaks at the first index whose running total reaches the draw, provided the whole table does |
| Obstacles.RouletteChoice | src/js/modules/Obstacle.js:23-32 | A draw no greater than the total always breaks the loop, at the first index whose running total reaches it |
| Obstacles.PickedKindBands | src/js/modules/Obstacle.js:11-33 | Each kind owns a band of [0, 5) as wide as its weight (box first, then spike, then tall), both directions, so a kind is picked with probability weight/5 and the loop never falls through |
| Obstacles.MakeObstacle | src/js/modules/Obstacle.js:35-62 | A new record starts at the right edge, unscored, of the chosen kind, with its bottom on the ground line the player stands on |
| Obstacles.Moved | src/js/modules/Obstacle.js:87-93 | An obstacle moves left by the game speed, keeps its shape, and is scored exactly when it was already scored or its right edge is now left of the player |
| Obstacles.Scrolled | src/js/modules/Obstacle.js:86-96 | The scroll never lengthens the list and keeps only obstacles right of x = −50 |
| Obstacles.ScrolledFrom | src/js/modules/Obstacle.js:86-96 | Every obstacle after the scroll is an old one moved |
| Obstacles.ScrolledKeeps | src/js/modules/Obstacle.js:86-96 | Every old obstacle whose moved left edge is right of −50 survives the scroll |
| Obstacles.ScrolledAppend | src/js/modules/Obstacle.js:86-96 | The scroll works element by element and keeps the order of the list |
| Obstacles.ScrollStep | src/js/modules/Obstacle.js:86-96 | One more obstacle extends the scroll and the pass count by that obstacle's own fate |
| Obstacles.ScrolledRests | src/js/modules/Obstacle.js:86-96 | Scrolling keeps every obstacle on the ground line |
| Obstacles.ScrolledPassedAreScored | src/js/modules/Obstacle.js:90-93 | After a frame every kept obstacle whose right edge is behind the player is scored |
| Obstacles.Passes | src/js/modules/Obstacle.js:90-93 | A frame plays at most one pass sound per not-yet-scored obstacle |
| Obstacles.PassEvents | src/js/modules/Obstacle.js:90-93 | Over any run of frames an obstacle plays its pass sound at most once, and never once scored |
| Obstacles.CurrentInterval | src/js/modules/Obstacle.js:99-102 | The spawn interval never drops below 40 nor exceeds max(40, base interval) |
| Obstacles.CurrentRandomness | src/js/modules/Obstacle.js:103-106 | The random spread never exceeds 60 nor drops below the base spread |
| Obstacles.SpawnTimingMonotone | src/js/modules/Obstacle.js:99-106 | Rising difficulty only shortens the interval and only widens the spread |
| Obstacles.SpawnCadence | src/js/modules/Obstacle.js:109-113 | At every difficulty no obstacle spawns while the timer is at most 40, and one always spawns once it reaches 120 |
| Obstacles.SpawnWindow | src/js/modules/Obstacle.js:110 | For any interval and positive spread, a timer at most the interval never spawns and one at least interval + spread always does |
| Obstacles.TrailingScheduled | src/js/modules/Obstacle.js:67 | A trailing obstacle is never scheduled below difficulty 5 and always from difficulty 40 on |
| Obstacles.TrailingKind | src/js/modules/Obstacle.js:69 | The trailing obstacle is a spike exactly for draws below 0.7, otherwise a box, never a tall one |
| Obstacles.GroundedCollision | src/js/modules/Obstacle.js:141-153 | For a player standing on the ground, a resting obstacle overlaps it exactly when their horizontal extents overlap |
| Obstacles.ObstacleManager.constructor | src/js/modules/Obstacle.js:2-8 | A new manager has no obstacles, a zero timer and the base constants |
| Obstacles.ObstacleManager.CreateObstacle | src/js/modules/Obstacle.js:11-67 | Exactly one record of the picked kind is appended; reports whether a trailing obstacle is due (difficulty above 4 and the draw below 0.2 + 0.02·d) |
| Obstacles.ObstacleManager.PushTrailingObstacle | src/js/modules/Obstacle.js:68-79 | The deferred second obstacle, a spike with probability 0.7 and otherwise a box, is appended |
| Obstacles.ObstacleManager.Scroll | src/js/modules/Obstacle.js:86-96 | The list becomes the scroll of the old one and the pass count that of the old list; the timer and constants are untouched and every obstacle still rests on the ground line |
| Obstacles.ObstacleManager.Update | src/js/modules/Obstacle.js:84-114 | The list becomes the scroll of the old one plus, on a spawn, one new record. The pass count is that of the old list. The timer is reset on a spawn and otherwise counts up. A spawn happens exactly when the incremented timer exceeds interval + r·spread. The invariant (timer below 120) is kept |
| Obstacles.ObstacleManager.CheckCollision | src/js/modules/Obstacle.js:141-153 | The result is true exactly when the player's box strictly overlaps some obstacle |
| Obstacles.ObstacleManager.Reset | src/js/modules/Obstacle.js:156-161 | No obstacles, zero timer, base constants restored |
| Scoring.BasePoints | src/js/modules/GameEngine.js:26-33 | Every type is worth between 10 and 50 points in steps of 5; unknown types are worth 10 |
| Scoring.Multiplier | src/js/modules/GameEngine.js:161-162 | The multiplier is at least 1 and exceeds 1 exactly from a combo of 3 on |
| Scoring.ClearPoints | src/js/modules/GameEngine.js:152-172 | A clear earns at least base + 2·difficulty + ⌊3·speed⌋. The below-3 branch is the uniform formula with multiplier 1 |
| Scoring.Award | src/js/modules/GameEngine.js:152-181 | The combo grows by one and its timer restarts. The best combo is raised to it. The score grows by the points awarded. The multiplier is updated from a combo of 3 on. The ledger invariant is kept |
| Scoring.ResetCombo | src/js/modules/GameEngine.js:184-188 | Combo, multiplier and combo timer return to 0, 1, 0; score and best combo kept; invariant kept |
| Scoring.DecayCombo | src/js/modules/GameEngine.js:120-125 | An idle combo is untouched. A live combo ends exactly when its timer passes 180; otherwise only its timer advances. Score and best combo are kept. The invariant is kept |
| Scoring.ComboLifetime | src/js/modules/GameEngine.js:120-125 | A combo fresh from a clear stays intact, its timer counting, for 180 frames without a clear, and frame 181 resets it |
| Scoring.ClearPointsGrowWithCombo | src/js/modules/GameEngine.js:162-172 | A longer combo never earns fewer points per clear |
| Scoring.SurvivalPoints | src/js/modules/GameEngine.js:116 | A frame earns ⌊speed/3⌋, non-negative at non-negative speed |
| Scoring.SurvivalPointsOnSchedule | src/js/modules/GameEngine.js:116 | On the speed schedule, in exact real arithmetic, a frame earns exactly (difficulty + 5) / 10 points, so nothing below difficulty 5 |
| Scoring.Ramp | src/js/modules/GameEngine.js:128-133 | Difficulty rises by one exactly when the timer passes 300, otherwise stays; speed never falls; the speed schedule is kept |
| Scoring.RampSchedule | src/js/modules/GameEngine.js:128-133 | After n frames from the start, difficulty is n / 301, the timer n mod 301 and the speed 1.5 + 0.3·(n / 301) |
| Scoring.NewFloatingPoint | src/js/modules/GameEngine.js:199-207 | A new indicator carries the given points, sits 20 above the given point, has 60 frames of life, rises, and its alpha is its life over 60 |
| Scoring.Faded | src/js/modules/GameEngine.js:254-256 | One draw pass moves an indicator by its velocity, takes one frame of life and sets alpha to life/60 |
| Scoring.Aged | src/js/modules/GameEngine.js:251-276 | A draw pass never lengthens the list and keeps only indicators with life left |
| Scoring.AgedAppend | src/js/modules/GameEngine.js:251-276 | The draw pass works element by element and keeps the order of the list |
| Scoring.AgedSingle | src/js/modules/GameEngine.js:251-276 | A lone indicator survives a pass exactly when it had more than one frame left |
| Scoring.AgedLife | src/js/modules/GameEngine.js:251-276 | A draw pass keeps every indicator's life within 1..60 |
| Scoring.FadedStep | src/js/modules/GameEngine.js:254-256 | One more pass on the closed form is the closed form one frame later |
| Scoring.FadeOut | src/js/modules/GameEngine.js:251-276 | An indicator with `life` frames left is on screen after each of its first life − 1 passes, risen n steps with alpha (life − n)/60, and gone after pass `life` |
| Scoring.FloatingPointLifetime | src/js/modules/GameEngine.js:191-208 | A new indicator survives 59 passes and is gone after the 60th |
| Engine.GameEngine.constructor | src/js/modules/GameEngine.js:2-52 | A new session is idle, with the stored high score (0 when none), a fresh ledger, the start pace, a player at rest and no obstacles |
| Engine.GameEngine.Start | src/js/modules/GameEngine.js:55-95 | A run starts from a fresh ledger and pace, no indicators, a player at rest and an empty obstacle list; the high score is kept |
| Engine.GameEngine.Update | src/js/modules/GameEngine.js:108-148 | When no run is on, nothing changes. Otherwise the player falls and the obstacles scroll and spawn as the manager's update says, at the frame's old speed and difficulty. The ledger gains the survival points and then decays. The pace ramps. The run ends exactly when the player now overlaps an obstacle, and then the charge is dropped and the high score raised to the score |
| Engine.GameEngine.AdvanceCounters | src/js/modules/GameEngine.js:116-133 | The ledger becomes the decayed ledger with the survival points added, and the pace is ramped; both invariants are kept |
| Engine.GameEngine.AddObstaclePoints | src/js/modules/GameEngine.js:152-181 | The ledger and the returned points are `Award` of the old ledger; one indicator with those points is appended |
| Engine.GameEngine.ResetCombo | src/js/modules/GameEngine.js:184-188 | The ledger becomes `ResetCombo` of the old one and satisfies the ledger invariant; nothing else changes |
| Engine.GameEngine.AddFloatingPoint | src/js/modules/GameEngine.js:191-208 | One indicator, 20 above the given point, with 60 frames of life, rising 2 per frame, fully opaque, is appended; the engine invariant is kept |
| Engine.GameEngine.DrawFloatingPoints | src/js/modules/GameEngine.js:251-276 | The indicator list becomes `Aged` of the old one, keeping the 1..60 life invariant |
| Engine.GameEngine.StartJumpCharge | src/js/modules/GameEngine.js:321-325 | During a run the player starts charging as `StartCharge` says; otherwise nothing changes |
| Engine.GameEngine.ExecuteJump | src/js/modules/GameEngine.js:328-340 | During a run the player jumps as `Jump` says, and the jump is big exactly when its charge ratio exceeds 0.7; otherwise nothing changes |
| Engine.GameEngine.CanExecuteQuickJump | src/js/modules/GameEngine.js:343-345 | The quick jump is offered exactly when a run is on and an ordinary jump would change the player |
| Engine.GameEngine.ExecuteQuickJump | src/js/modules/GameEngine.js:343-356 | When the player is not jumping during a run it makes the quick jump; otherwise nothing changes |
| Engine.GameEngine.GameOver | src/js/modules/GameEngine.js:359-374 | The run stops, the charge is dropped and the high score becomes the larger of itself and the score |

## Left out

- Drawing is not modelled. This covers every `draw` method, the combo display,
  the canvas hue filter, and the player, obstacle and indicator colours. It is
  rendering and has no effect on game state.
- The audio system (`src/js/modules/AudioSystem.js`) is not part of this model.
  The sounds become outputs: the pass count and the charge ratio.
- Input handling (`src/js/modules/InputHandler.js`) is not part of this model.
  Its calls become the engine's jump methods. The 100 ms tap threshold that
  chooses the quick jump belongs to the input handler.
- The particle system, background and grass effect are not part of this model.
  They are cosmetic.
- The browser entry point (`src/js/main.js`) is not part of this model.
- `requestAnimationFrame` and the game loop are not modelled. One call of
  `Engine.GameEngine.Update` is one frame.
- Timers are not modelled:
  - the 400 ms delay before the trailing obstacle appears. The push is the
    separate operation `Obstacles.ObstacleManager.PushTrailingObstacle`, which
    the caller runs later;
  - the 100 ms delay before the music starts;
  - the delayed game-over overlay.
- `localStorage` is not modelled. The stored high score is the constructor's
  `Option<int>` argument, and writing it back is left out.
- `getObstacles` is not modelled as a method. The model's callers read the
  `obstacles` field directly, which is all that method does.
- Scoring.BasePoints: type names that are members of `Object.prototype` are
  not modelled. The source looks a type up in a plain object, so for names
  such as "constructor", "toString" or "__proto__" it finds the inherited
  member, `|| 10` keeps that value, and the score stops being a number. The
  model gives such names 10 points. Nothing in the game calls
  `addObstaclePoints`, and the only obstacle types the game creates are box,
  spike and tall.
- `processPowerup` is never called, and no core operation depends on it.
- `lastObstacleTime` is written but never read.
- Floating-point rounding of JavaScript numbers is not modelled. Speed, gravity
  and positions are exact reals. The rounding changes whole-number results at
  two difficulty levels. In doubles, `1.5 + 0.3 × 5` accumulated by repeated
  addition is 2.9999999999999996, and at level 15 it is 5.999999999999998. So
  at levels 5 and 15 the browser's `Math.floor(gameSpeed / 3)` survival points
  and `Math.floor(gameSpeed * 3)` speed bonus are each one lower than the
  model's. Among levels 0 to 40 no other level differs.
- PlayerPhysics.Player.GetBounds: carries no contract, because it only returns
  the player's fields as a box. It appears in the contracts of
  `Obstacles.ObstacleManager.CheckCollision` and `Engine.GameEngine.Update`.
