# Neon Rift simulation core in Dafny

This project models the simulation core of Neon Rift Protocol, a browser endless runner with three lanes. The core is the global run `state` that one frame of `update` advances:
- spawn timers and spawners for obstacles, shards and drones;
- the player's dash and shield timers, travel distance and score;
- the energy drain with the burst-mode hysteresis, and combo decay;
- the entity loops, with shard pickup by a magnet radius, and the cleanup filters;
- collision detection, which can end the run and pay it out;
- difficulty escalation and the feat (achievement) check.

The model also covers the two player commands (`changeLane`, `dash`) and the persistent profile: loading a stored profile over the defaults, the upgrade catalog and its prices, and buying an upgrade.

Layout:
- `numeric.dfy` (`Numeric`): `Math.round`, min/max, a power function, and `Math.hypot(dx, dy) < r` stated without the square root.
- `rules.dfy` (`Rules`): the per-frame formulas as pure functions, and the fields that collecting a shard writes (`Tally`).
- `entities.dfy` (`Entities`): obstacle, shard and drone values; spawning, movement, first-hit search and filtering.
- `achievements.dfy` (`Achievements`): the ordered feat table, and `Unlock`, the effect of one walk over it.
- `economy.dfy` (`Economy`): the catalog, and the `Profile` class with `Load`, `BuyUpgrade` and `CheckAchievements`.
- `game.dfy` (`Simulation`): the `Game` class, which stands for the global `state` object. Its fields are updated in place by `ResetRun`, `EndRun`, `ChangeLane`, `Dash` and `Update`. `Update` is split into methods, one per block of the source's `update`.
- `wrappers.dfy` (`Wrappers`): `Option`.

Key points of the model:
- Entity lists are `seq` fields. Each `forEach` is a `while` loop that rebuilds the list, proved against the per-entity function (`MoveObstacle`, `SweepShard`, `MoveDrone`).
- `Game.Valid()` is the invariant every entry point keeps:
  - the player's lane is 1, its target lane and every entity's lane lie in 0..2;
  - no collected shard survives a frame;
  - combo is at least 1;
  - energy is at most 110 (a shard heals past the usual clamp of 100), and not negative while a run is active;
  - run shards are not negative;
  - the level follows the difficulty.
- Each block of a frame is stated against a function on `RunState`, the value of the whole run state: `RunSpawners` against `Spawned`, `Travel` against `Travelled`, and so on. These compose into `Frame`, and `Update` ensures that a running frame leaves exactly `Frame` of the old state. The lemmas `FramePlayer`, `FrameDifficulty`, `FrameTravel` and `FrameEnds` read facts off `Frame`.
- The shard loop is summarised as follows: the run fields end up as if the shards it grabbed had been collected one after another (`CollectN`), whichever shards they were.
- Nothing in the source ever assigns `player.lane` except `resetRun`, which sets it to 1. Lane changes write only `targetLane`. A frame reads `targetLane` only to ease `player.x` (script.js:274), and nothing reads `player.x`: drawing (script.js:433), pickups (script.js:314) and collisions (script.js:338) all use the centre of `player.lane`. A lane change therefore has no effect on the simulation or on the screen. The model keeps this: `Game.Valid()` holds `player.lane == 1`, which the constructor and `ResetRun` establish and every entry point keeps, and `FrameIgnoresTarget` proves that a frame never reads the target lane.
- `update` takes no precondition on `delta`. The first frame after a reset can see a negative delta, because the `requestAnimationFrame` timestamp and `performance.now()` differ. Monotonicity facts are therefore stated under `delta >= 0`.

## Model

| member | source | states |
|---|---|---|
| Numeric.Round | script.js:281 | `Math.round` returns the integer within half a unit of its argument, a half rounding up |
| Numeric.PowAtLeastOne | script.js:521 | a scale of at least 1 raised to any rank is at least 1 |
| Rules.LaneX | script.js:211-214 | a lane's centre lies strictly inside the canvas |
| Rules.LanesLeftToRight | script.js:211-214 | lane centres increase strictly with the lane index |
| Rules.ShiftLane | script.js:464 | the new target lane is always a lane; it is target + direction when that is a lane, else the nearest edge lane |
| Rules.ObstacleInterval | script.js:256 | the obstacle interval is never below 180, and at most 450 for non-negative difficulty |
| Rules.ShardInterval | script.js:257 | the shard interval is never below 200, and at most 600 for non-negative difficulty |
| Rules.DroneInterval | script.js:258 | the drone interval is never below 1500, and at most 4000 for non-negative difficulty |
| Rules.IntervalsShrink | script.js:256-258 | all three spawn intervals are non-increasing in difficulty |
| Rules.TravelSpeed | script.js:279 | speed is at least the base speed when difficulty and thrust are not negative; burst multiplies the non-burst speed by 1.25 |
| Rules.DistanceAfter | script.js:280 | the distance never drops for a non-negative speed and delta, and one second adds exactly the speed |
| Rules.Score | script.js:281 | without shards the score is the rounded distance; it is not negative when its inputs are not |
| Rules.DrainEnergy | script.js:283 | energy after the drain lies in [0, 100]; an in-range raw value is kept exactly; a combo too small to offset the drain never raises energy |
| Rules.BurstAfter | script.js:287-294 | the flag changes only on a crossing: it switches on at energy 90 or more and off below 30 |
| Rules.BurstHoldsOn | script.js:291-294 | once on, burst mode stays on over any run of frames whose energy stays at 30 or more |
| Rules.BurstHoldsOff | script.js:287-290 | once off, burst mode stays off over any run of frames whose energy stays below 90 |
| Rules.BandKeepsBurst | script.js:287-294 | energies that stay within [30, 90) never toggle burst mode |
| Rules.DecayDelay | script.js:297 | the quiet time before decay is at least 2200 ms, and at most 4300 ms for focus ranks 0..5 |
| Rules.DecayCombo | script.js:296-301 | decay keeps combo at least 1, never raises it for delta >= 0, and changes nothing before the focus delay or at combo 1 |
| Rules.Tick | script.js:276-277 | a timer at or below zero is left alone; a running one never grows for delta >= 0 |
| Rules.DashCooldown | script.js:472 | for flux ranks 0..6 the cooldown lies in [480, 1200] |
| Rules.MagnetRadius | script.js:303 | the pickup radius bonus is at least 40, and at most 88 for magnet ranks 0..6 |
| Rules.Immune | script.js:345 | a running dash or shield timer makes the player immune; the same test is at line 359 |
| Rules.Collect | script.js:371-379 | a pickup banks at least 1.2 at combo >= 1, caps combo at 9 (+0.15 below the cap), heals by 4 up to 110, and restarts the quiet timer |
| Rules.CollectN | script.js:309-320 | the run fields after k pickups in a row, each one `Collect` |
| Rules.CollectNBounds | script.js:309-320 | after k pickups: combo >= 1, at least 1.2 banked per pickup, energy stays within [0, 110]; at least one pickup caps combo at 9 and restarts the quiet timer |
| Rules.CollectAtComboTwo | script.js:373-374 | at combo 2 a shard is worth exactly 1.4 |
| Rules.Level | script.js:383 | the level is at most 10, at least 1 for non-negative difficulty, and 10 from difficulty 36 |
| Rules.LevelMonotone | script.js:381-384 | the level never drops as difficulty grows |
| Rules.Payout | script.js:202 | the payout is not negative, and at least 1.1 times the run shards, less the rounding, when combo >= 1 |
| Entities.PickLane | script.js:217 | a random draw picks a lane in 0..2 |
| Entities.NewObstacle | script.js:216-226 | a new obstacle is in a lane, its size is within [32, 64) plus twice the difficulty, it starts one size past the right edge, and it is at least as fast as the base speed |
| Entities.NewShard | script.js:228-237 | a new shard is in a lane, not collected, offset within [-10, 10), and starts 10 past the right edge |
| Entities.NewDrone | script.js:239-249 | a new drone is in a lane, its timer is 0, its frequency and amplitude are within their ranges, it is in the middle 40% of the height, and it starts 80 past the right edge |

| Entities.MoveObstacle | script.js:305-308 | lane, size and speed are kept; the obstacle never moves right for delta >= 0 and a non-negative net speed |
| Entities.MoveShard | script.js:309-313 | lane, collected flag and offset are kept; the shard never moves right for delta >= 0 and speed >= 0 |
| Entities.Grabbable | script.js:314-317 | an uncollected shard is grabbed when it lies within the pickup reach of the player |
| Entities.SweepShard | script.js:309-320 | after the pass a shard is collected exactly when it was already, or when it was uncollected and within reach once moved |
| Entities.MoveDrone | script.js:321-325 | lane, frequency and amplitude are kept; the timer grows by delta; the drone never moves right for delta >= 0 and speed >= 0 |
| Entities.MoveObstacles | script.js:305-308 | the obstacle loop: every obstacle moved as `MoveObstacle` says, in its place |
| Entities.SweepShards | script.js:309-320 | the shard loop: every shard swept as `SweepShard` says, in its place |
| Entities.MoveDrones | script.js:321-325 | the drone loop: every drone moved as `MoveDrone` says, in its place |
| Entities.CountGrabs | script.js:309-320 | the number of shards the shard loop picks up, at most the number of shards |
| Entities.ObstacleHit | script.js:342-344 | an obstacle hits the player when it is in the player's lane and its centre is closer than half its size plus the player's radius |
| Entities.DroneHit | script.js:357-358 | a drone hits the player when it is closer than 40 pixels |
| Entities.FirstObstacleHit | script.js:341-354 | the index of the first obstacle in the player's lane that overlaps the player, or the length when none does |
| Entities.FirstDroneHit | script.js:356-368 | the index of the first drone within 40 of the player, or the length when none is |
| Entities.FindObstacleHit | script.js:341-344 | the in-order scan stops exactly at the first obstacle hit |
| Entities.FindDroneHit | script.js:356-358 | the in-order scan stops exactly at the first drone hit |
| Entities.KeepObstacle | script.js:327 | an obstacle survives cleanup until it is two sizes past the left edge |
| Entities.KeepShard | script.js:328 | a shard survives cleanup while uncollected and less than 20 past the left edge |
| Entities.KeepDrone | script.js:329 | a drone survives cleanup until it is 120 past the left edge |
| Entities.Filter | script.js:327-329 | the result holds exactly the accepted elements, and no others |
| Entities.FilterAppend | script.js:327-329 | filtering distributes over concatenation, so the survivors keep their order |
| Entities.FilterKeepsAll | script.js:327-329 | a filter leaves a list unchanged exactly when it accepts every element |
| Entities.CleanupKeepsLanes | script.js:327-329 | the three filters keep every entity in a lane and leave no collected shard |
| Achievements.Met | script.js:123-128 | the condition of each of the six feats, read off the run's stats |
| Achievements.Unlock | script.js:559-569 | the feat flags after one walk over the table: each feat in order is set when it is not yet set and its condition holds |
| Achievements.UnlockedAfter | script.js:559-569 | after the walk a feat key is unlocked exactly when it was already, or a feat with that key has its condition met |
| Achievements.UnlockLeavesOthers | script.js:559-569 | keys outside the feat table are neither added nor changed |
| Achievements.UnlockSettled | script.js:561 | when every met feat is already unlocked, the walk changes nothing |
| Achievements.UnlockIdempotent | script.js:559-569 | a second walk over the same run changes nothing |
| Economy.DefaultUpgrades | script.js:35-41 | every upgrade starts at rank 0 |
| Economy.UpgradeCost | script.js:521 | the price of any rank is at least the base cost |
| Economy.Catalog | script.js:84-120 | base cost, price scale and maximum rank of the five upgrades |

| Economy.CostRises | script.js:84-120 | every rank costs strictly more than the one before |
| Economy.MergeUpgrades | script.js:139 | every default key survives, a stored rank overrides the default, and unknown stored keys are kept |
| Economy.Profile.Load | script.js:131-146 | a missing record yields the defaults; a stored one keeps its shards, best score and feats, and merges its ranks over the defaults |
| Economy.Profile.BuyUpgrade | script.js:538-547 | at the maximum rank or without enough currency nothing changes; otherwise the cost is paid and only that rank rises by one; a sound profile stays sound |
| Economy.Profile.CheckAchievements | script.js:559-569 | the loop leaves the flags as `Unlock` over the whole feat table |
| Simulation.StartState | script.js:174-195 | the state a run starts from: running, timers, score, distance and run shards at 0, energy 100, combo 1, level 1, empty lists, both lanes 1, no dash, shield rank times 1000 ms |
| Simulation.ObstacleSpawned | script.js:253-263 | the obstacle accumulator grows by delta; past the obstacle interval it restarts at 0 and one new obstacle is appended |
| Simulation.ShardSpawned | script.js:254-267 | the shard accumulator grows by delta; past the shard interval it restarts at 0 and one new shard is appended |
| Simulation.DroneSpawned | script.js:255-271 | the drone accumulator grows by delta; past the drone interval it restarts at 0 and one new drone is appended |
| Simulation.Spawned | script.js:253-271 | the three accumulators of a frame, each on its own fields |
| Simulation.Timed | script.js:275-277 | the player's height is pinned at 0.75 of the canvas and the dash and shield timers tick |
| Simulation.Travelled | script.js:279-281 | the distance grows at the frame's travel speed and the score is recomputed from it |
| Simulation.Drained | script.js:283-294 | energy drains and clamps, and burst mode follows the new energy |
| Simulation.Decayed | script.js:296-301 | the quiet timer grows by delta and the combo decays past the focus delay |
| Simulation.Prepared | script.js:253-301 | spawning, timers, travel, drain and decay, in the source's order |
| Simulation.FrameSweep | script.js:303-317 | the shard pass of a frame: the player at lane 1's centre and its height, the reach the player's radius plus the magnet bonus |
| Simulation.ShardsSwept | script.js:309-320 | every shard swept, and the run fields as `CollectN` of the number grabbed |
| Simulation.Cleaned | script.js:327-329 | each list becomes its filter |
| Simulation.Swept | script.js:303-329 | the obstacle, shard and drone loops, then the cleanup filters |
| Simulation.Advanced | script.js:253-329 | a running frame up to the collision check |
| Simulation.CollisionEnds | script.js:337-369 | the run ends when the first obstacle hit meets a player without dash or shield, or, with no obstacle hit, the first drone hit does and leaves energy at 0 or below |
| Simulation.Collided | script.js:337-369 | only the first obstacle hit is resolved, else only the first drone hit: an immune player heals and sends the entity off-scene (+0.5 combo for an obstacle); a drone costs anyone else 25 energy; the run stops exactly when `CollisionEnds` |
| Simulation.Escalated | script.js:381-384 | difficulty grows by 0.0045 per millisecond and the level is recomputed from it |
| Simulation.Frame | script.js:251-332 | a whole running frame up to the feat check: `Advanced`, then `Collided`, then `Escalated` |
| Simulation.Game.constructor | script.js:51-82 | the initial state: not running, lane 1, energy 100, combo 1, level 1, empty lists |
| Simulation.Game.ResetRun | script.js:174-197 | a run starts from the fixed start state, with the player's height kept and one second of shield per shield rank; the invariant holds |
| Simulation.Game.EndRun | script.js:199-209 | the run stops, the payout is added to the currency, and the best score becomes the larger of the old best and the score |
| Simulation.Game.ChangeLane | script.js:462-465 | restarts when idle; otherwise only the target lane changes, clamped to the lanes |
| Simulation.Game.Dash | script.js:467-479 | restarts when idle; during a cooldown nothing changes; otherwise the cooldown starts, combo +0.2, energy -6 floored at 0 |
| Simulation.Game.SpawnObstacle | script.js:216-226 | exactly one new obstacle is appended, and the lanes stay valid |
| Simulation.Game.SpawnShard | script.js:228-237 | exactly one new uncollected shard is appended |
| Simulation.Game.SpawnDrone | script.js:239-249 | exactly one new drone is appended, and the lanes stay valid |
| Simulation.Game.RunSpawners | script.js:253-271 | the state becomes `Spawned` of the old one: each accumulator past its interval appends exactly one entity and restarts at 0, otherwise it grows by delta; lanes stay valid |
| Simulation.Game.ObstacleSpawner | script.js:253-263 | the obstacle accumulator and list change exactly as `ObstacleSpawned` says, and lanes stay valid |
| Simulation.Game.ShardSpawner | script.js:254-267 | the shard accumulator and list change exactly as `ShardSpawned` says; lanes stay valid and no collected shard appears |
| Simulation.Game.DroneSpawner | script.js:255-271 | the drone accumulator and list change exactly as `DroneSpawned` says, and lanes stay valid |
| Simulation.Game.AdvanceTimers | script.js:275-277 | the state becomes `Timed` of the old one: the player's height is pinned and both timers tick |
| Simulation.Game.Travel | script.js:279-281 | the state becomes `Travelled` of the old one: the distance grows by speed times elapsed seconds, and the score is recomputed from it |
| Simulation.Game.DriftEnergy | script.js:283-294 | the state becomes `Drained` of the old one: energy is drained and clamped to [0, 100], and burst mode follows the hysteresis |
| Simulation.Game.DecayComboStep | script.js:296-301 | the state becomes `Decayed` of the old one: the quiet timer grows by delta, and combo decays as `DecayCombo` says |
| Simulation.Game.AdvanceObstacles | script.js:305-308 | every obstacle is moved in place as `MoveObstacle` says, and nothing else changes |
| Simulation.Game.CollectShard | script.js:371-379 | the shard is marked collected, and the run fields change as one `Collect` |
| Simulation.Game.SweepOne | script.js:309-320 | one shard is swept; the run fields change by one `Collect` exactly when it is grabbed |
| Simulation.Game.AdvanceShards | script.js:309-320 | every shard is swept in place, and the run fields equal `CollectN` of the number of grabbed shards |
| Simulation.Game.ShardPass | script.js:309-320 | the state becomes `ShardsSwept` of the old one: the swept shards and the tally after the grabs |
| Simulation.Game.AdvanceDrones | script.js:321-325 | every drone is moved in place as `MoveDrone` says, and nothing else changes |
| Simulation.Game.Cleanup | script.js:327-329 | the state becomes `Cleaned` of the old one: each list becomes its filter |
| Simulation.Game.HitObstacle | script.js:341-353 | an immune player smashes the obstacle (+12 energy capped at 100, +0.5 combo, obstacle sent off-scene); anyone else ends the run |
| Simulation.Game.HitDrone | script.js:356-367 | an immune player destroys the drone (+8 energy capped at 100); anyone else loses 25 energy and the run ends at 0 or below |
| Simulation.Game.DetectCollisions | script.js:337-369 | the state becomes `Collided` of the old one: only the first obstacle hit is handled, else only the first drone hit, else nothing changes; the run is paid out exactly when `CollisionEnds`; the best score and currency never drop |
| Simulation.Game.EscalateDifficulty | script.js:381-384 | the state becomes `Escalated` of the old one: difficulty grows by 0.0045 per millisecond, and the level follows it |
| Simulation.Game.AdvanceRun | script.js:253-301 | the state becomes `Prepared` of the old one (spawning, timers, travel, drain and decay in source order); lanes, the tally bounds and energy <= 100 hold; the travel speed returned is the frame's speed |
| Simulation.Game.AdvanceEntities | script.js:303-329 | the state becomes `Swept` of the old one (obstacle, shard and drone loops, then cleanup); lanes and the tally bounds hold, and run shards never drop |
| Simulation.Game.AdvanceFrame | script.js:253-329 | the state becomes `Advanced` of the old one, and the invariant's parts hold |
| Simulation.Game.Step | script.js:251-332 | a running frame up to the feat check leaves exactly `Frame` of the old state and keeps the invariant; an ended run is paid out, a continuing one leaves the profile alone |
| Simulation.Game.RunFrame | script.js:251-335 | a running frame leaves exactly `Frame` of the old state, pays out an ended run, unlocks feats as `Unlock` says, and keeps the invariant |
| Simulation.Game.Update | script.js:251-335 | an idle game is untouched; a running frame leaves exactly `Frame` of the old state, keeps the invariant, leaves ranks alone, pays out an ended run, never lowers best score or currency, and unlocks feats as `Unlock` says |
| Simulation.FramePlayer | script.js:275-277 | a frame pins the player's height, ticks the dash and shield timers and leaves both lanes alone |
| Simulation.FrameDifficulty | script.js:381-384 | for delta >= 0 a frame raises the difficulty by 0.0045 per millisecond, the level follows it, and neither drops |
| Simulation.FrameTravel | script.js:279-281 | a frame's distance grows at the old state's travel speed and the score is computed from it; one second at difficulty 0 without thrust or burst covers exactly 260 pixels |

| Simulation.FrameEnds | script.js:337-369 | a running frame stops the run exactly when the collision check after the entity loops ends it |
| Simulation.PreparedIgnoresTarget | script.js:253-301 | the phases before the entity loops never read the target lane |
| Simulation.SweptIgnoresTarget | script.js:303-329 | the entity loops and the cleanup never read the target lane |
| Simulation.CollidedIgnoresTarget | script.js:337-369 | the collision check never reads the target lane |
| Simulation.FrameIgnoresTarget | script.js:251-332 | states that differ only in the target lane give frames that differ only in it, so a lane change has no effect on the run |

## Left out

- Rendering, the HUD, status messages, `updateMeta` and the upgrade and feat panels (`render`, `updateHud`, `renderUpgrades`, `renderAchievements`) only draw; the model has no output.
- Input plumbing (the keyboard, canvas tap, touch-swipe and button handlers) is left out; they only call `changeLane(±1)` and `dash()`, which are modelled.
- The frame driver (`step`, `requestAnimationFrame`, `lastTime`) is left out; `Update` takes the frame's `delta` as a parameter.
- `localStorage`, `JSON.parse`, `deepClone` and the `try`/`catch` are left out. `Economy.Profile.Load` takes the parsed record, with `None` standing for a missing or unreadable entry and `None` fields for absent ones. Stored values of a non-integer JSON type are not modelled.
- `saveProfile` writes to storage only, so it is left out.
- `Math.random()` draws are parameters: `Rolls`, each in [0, 1). The wobble and drift phases (a draw times 2π) are given directly as phases.
- `Math.sin` is a parameter (`sine`) of the shard and drone movement, so the model holds for any sine function.
- `Math.hypot(dx, dy) < r` is modelled exactly, by squares.
- `resize` is left out: the canvas width and height are constants of a `Game`.
- `player.x` is left out: line 274 writes it and nothing ever reads it.
- `spawnBias`, the catalog titles and descriptions, and the feat labels are never used by the simulation.
- Numbers are exact reals and unbounded integers. IEEE-754 rounding (for example in `Math.pow` and the exact `energy === 100` comparison) is not modelled.
- Entities.NewShard: the shard's `y` is never set at spawn. The model sets it to 0; the same frame's movement overwrites it before anything reads it.
- Economy.Profile.Rank: reads a missing rank as 0. Under `Profile.Valid()` every catalog key has a rank, so the fallback is never used.
- Economy.Profile.BuyUpgrade: does not relate `cost` to `UpgradeCost`. The caller computes the price with IEEE `Math.pow` (script.js:521, 531), which the exact reals do not model, so the price is an argument; `UpgradeCost` states the formula on its own. The cards are rebuilt whenever a rank or the currency changes (script.js:208, 518, 543-545), so the price passed is always the current rank's. The key must be a catalog key: the source's buttons only pass catalog keys, and any other key makes it throw.
- Economy.Profile.Sound (currency never negative, ranks within the catalog) is not part of `Valid()`. A stored profile can break it, and the source does not check ranks. `BuyUpgrade` preserves it.
