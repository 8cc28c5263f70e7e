# Enemy and goblin priest of TdGame, in Dafny

This project models the enemy of the TdGame tower-defense game.

`Enemy` (TdGame/enemy.h) is an object that is updated in place once per frame:
- its three timers (skill release, "sketch" flash, speed restore) run their callbacks;
- it steps toward the pixel centre of its current route waypoint without passing it;
- it switches to the next waypoint when the distance left was approximately zero before the step;
- it rebuilds its velocity from its heading, speed and the tile size;
- it picks one of eight walking animations (four facings, normal or sketch skin) and advances it.

Drawing places the current animation frame centred on the enemy. A wounded enemy also gets a 40 by 8 health bar, filled in proportion to its health.

`GoblinPriestEnemy` (TdGame/goblin_priest_enemy.h) configures this base:
- it copies the priest's stat template;
- it cuts a 5 by 4 sprite sheet into four 5-frame walk cycles on a normal and a sketch texture;
- it sets the skill timer to the recovery interval.

Layout:
- `Enemies.Enemy` is a class with the source's fields. Its methods change them in place, and their `ensures` state the whole new state.
- The kinematics of a frame are stated once as the pure function `EnemyMotion.Advance`. `Enemy.Move` and `Enemy.OnUpdate` are proved to follow it.
- The route properties are lemmas about `EnemyMotion.Run`, `Advance` iterated over a sequence of frames.
- Animation choice and drawing are pure functions (`EnemyAnimation`, `EnemyRender`). `Enemy.OnRender` is proved equal to them.
- The C++ `(int)` cast is `Geometry.Trunc` (truncation toward zero). Reals stand for doubles.

Arrival is judged on the distance measured *before* the frame's move. So an enemy that reaches its waypoint exactly on frame 10 still has the same index after that frame. The index advances on frame 11, which moves the enemy zero pixels. `Scenarios.ArrivalOnEleventhFrame` proves this for a ten-frame walk.

Likewise, the health bar's fill width is not clamped by the code. An `hp` at or below `-max_hp / 40` gives a negative width; a smaller deficit is cut toward zero to width 0. `EnemyRender.HpBarFillProportional` states the bound only for non-negative health.

## Model

| member | source | states |
|---|---|---|
| Enemies.Enemy.constructor | TdGame/enemy.h:21-39 | Each timer is wired up: the skill timer repeats and releases the skill; the sketch timer is one-shot, waits 0.075 s and hides the sketch skin; the restore timer is one-shot and restores the speed. Every stat and vector starts at zero, the enemy is valid, no sketch is shown, and there is no route, no current animation and no skill callback. |
| Enemies.Enemy.OnSkillReleased | TdGame/enemy.h:26 | The skill timer's callback invokes the assigned skill callback once for this enemy (counted); it needs one to be assigned. |
| Enemies.Enemy.OnSketchTimeout | TdGame/enemy.h:33 | The sketch timer's callback turns the sketch skin off. |
| Enemies.Enemy.OnRestoreSpeedTimeout | TdGame/enemy.h:38 | The restore timer's callback sets the speed back to the maximum speed. |
| Enemies.Enemy.OnUpdate | TdGame/enemy.h:44-89 | A skill callback must be assigned whenever the skill timer fires. One frame runs the fired callbacks in order: skill once per timeout, then sketch, then restore. The kinematic state then becomes `Advance` of the old state, at the speed in force after the callbacks. The current animation becomes the one `SelectAnim` picks for the new velocity and sketch flag, and exactly that animation is advanced by `delta`. |
| Enemies.Enemy.Move | TdGame/enemy.h:51-68 | The step toward the waypoint, the switch on arrival and the velocity rebuild leave position, velocity, direction, target and index equal to `Advance` of their old values. |
| Enemies.Enemy.RefreshPositionTarget | TdGame/enemy.h:172-184 | When the index is inside the route, the target becomes the pixel centre of that waypoint's tile. Otherwise the target is left as it was. |
| Enemies.Enemy.OnRender | TdGame/enemy.h:92-122 | The draw calls are exactly `RenderCommands` of the current animation, position, size and health. |
| Enemies.Enemy.GoblinPriest | TdGame/goblin_priest_enemy.h:13-64 | A goblin priest has the base defaults plus the template's stats, a 48 by 48 size, full health and full speed. The skill timer waits the recovery interval. The eight animations are configured as `PriestAnimations`. |
| EnemyMotion.Advance | TdGame/enemy.h:51-68 | The index advances by exactly one if and only if the pre-move distance is approximately zero. Without arrival, target and heading are unchanged. On arrival, the target is the next waypoint's centre when the route has one and is unchanged otherwise, and the heading points from the new position to the target. The velocity is always heading times speed times tile size. |
| EnemyMotion.Stride | TdGame/enemy.h:52-54 | A frame's displacement is `velocity * delta` when `<` ranks it below the distance left, and the whole distance left otherwise, ties included. |
| EnemyMotion.VelocityFor | TdGame/enemy.h:67-68 | The velocity is the heading scaled by the speed converted from tiles to pixels per second. |
| EnemyMotion.Arrived | TdGame/enemy.h:57 | Definition, no contract: a waypoint is reached when `approx_zero` holds of the distance left before the move. `Advance` and `RunCountsArrivals` state what arrival does. |
| EnemyMotion.RefreshedTarget | TdGame/enemy.h:174-183 | Definition, no contract: the target after a switch is the centre of the waypoint the index names, or the old target past the route's end. `Advance` states it and `TileCenterInTile` places it on the waypoint's tile. |
| EnemyMotion.StrideShortest | TdGame/enemy.h:52-54 | When `<` ranks vectors by length, a frame's displacement is `velocity * delta` or the whole remaining distance, and is no longer than either. |
| EnemyMotion.AdvanceNoOvershoot | TdGame/enemy.h:52-54 | A frame moves the enemy by one of the two candidates and never past its target nor farther than `velocity * delta`. When the distance left is no longer than `velocity * delta`, ties included, the enemy lands exactly on its target. |
| EnemyMotion.Run | TdGame/enemy.h:56-60 | Over `n` frames the waypoint index grows by at most `n`. |
| EnemyMotion.RunTracksRoute | TdGame/enemy.h:56-64 | If the target is the centre of the waypoint the index names, that stays true after any number of frames. |
| EnemyMotion.RunFrozenPastRoute | TdGame/enemy.h:174-183 | Once the index is past the end of the route, no frame changes the target. |
| EnemyMotion.RunCountsArrivals | TdGame/enemy.h:56-60 | The index equals its start value plus the number of frames that began at the target. |
| EnemyAnimation.SelectAnim | TdGame/enemy.h:70-85 | The skin is the sketch skin if and only if the sketch flag is set. Right if and only if abs(vx) >= abs(vy) and vx > 0. Left if and only if abs(vx) >= abs(vy) and vx <= 0. Down if and only if abs(vx) < abs(vy) and vy > 0. Up if and only if abs(vx) < abs(vy) and vy <= 0. |
| EnemyAnimation.AnimFor | TdGame/enemy.h:131-138 | The animation built from a facing and a skin has that facing and that skin. |
| EnemyAnimation.AnimForRoundTrip | TdGame/enemy.h:131-138 | Every one of the eight animations is the one built from its own facing and skin. |
| EnemyRender.SpriteOrigin | TdGame/enemy.h:101-103 | The sprite's corner is the enemy's position minus half its size, cut toward zero to whole pixels. |
| EnemyRender.HpBar | TdGame/enemy.h:108-121 | A bar exists if and only if hp < max_hp. It sits 20 pixels left of the centre and 10 above the sprite's top. It is 8 high, its fill is `(int)(40 * hp / max_hp)` wide, and its border is the same rectangle at width 40. |
| EnemyRender.HpBarFillProportional | TdGame/enemy.h:113 | For 0 <= hp < max_hp the fill width is the whole part of `40 * hp / max_hp`, so it lies in [0, 40). |
| EnemyRender.HalfHealthHalfBar | TdGame/enemy.h:109-113 | At half health the bar is drawn and filled 20 of 40 pixels. |
| EnemyRender.RenderCommands | TdGame/enemy.h:101-121 | The sprite frame is drawn first at `SpriteOrigin`. Then, exactly when wounded, the filled content rectangle and the outlined border follow in their colours: three draws when wounded, one otherwise. |
| Geometry.Trunc | TdGame/enemy.h:111-114 | The `(int)` cast of a double: for non-negative values the largest integer not above it, for negative ones the smallest integer not below it. |
| Geometry.Abs | TdGame/enemy.h:71 | `abs` of a double is non-negative and equals the value or its negation. |
| Geometry.TileCenter | TdGame/enemy.h:181-182 | Definition, no contract: a cell's target is the grid origin plus the cell times the tile size plus half a tile, in integers, widened to double. `TileCenterInTile` and `TileCenterInjective` state its properties. |
| Geometry.TileCenterInTile | TdGame/enemy.h:181-182 | A waypoint's computed target lies on that waypoint's tile. |
| Geometry.TileCenterInjective | TdGame/enemy.h:181-182 | Distinct waypoint cells give distinct targets. |
| GoblinPriest.IdxList | TdGame/goblin_priest_enemy.h:24-27 | Each facing's frame list has five cells, all on the 20-cell sheet. |
| GoblinPriest.IdxListsPartitionSheet | TdGame/goblin_priest_enemy.h:24-27 | Read down, up, right, left, the four frame lists list the 20 cells of the 5 by 4 sheet once each. No two share a cell, and together they cover the sheet. |
| GoblinPriest.PriestAnimations | TdGame/goblin_priest_enemy.h:29-47 | Definition, no contract: the eight set-ups the priest configures. `PriestAnimationsComplete` states that every animation has one and which. |
| GoblinPriest.PriestAnimSetup | TdGame/goblin_priest_enemy.h:30-47 | Each animation loops at 0.15 s per frame over its facing's frame list of the 5 by 4 sheet, on the sketch texture exactly for the sketch skin. |
| GoblinPriest.SketchTwinsShareCells | TdGame/goblin_priest_enemy.h:40-47 | A sketch animation is its normal twin with only the texture replaced. |
| GoblinPriest.PriestAnimationsComplete | TdGame/goblin_priest_enemy.h:29-47 | All eight animations are configured, each as `PriestAnimSetup` says. |
| Scenarios.WalkSoFar | TdGame/enemy.h:51-68 | On a ten-pixel-per-frame walk toward a waypoint 100 pixels away, the enemy is `10 * k` pixels along with the index unchanged after each frame `k <= 10`. |
| Scenarios.ArrivalOnEleventhFrame | TdGame/enemy.h:51-68 | After ten frames the enemy stands exactly on the waypoint's centre with the index unchanged. The eleventh frame keeps it there, advances the index past the one-waypoint route and leaves the target unchanged. |

## Left out

- Drawing through SDL: draws are `DrawCmd` values, and a colour setting followed by a fill or outline is one command. The `static` rectangle and point shared between calls have no observable effect and are not modelled.
- Timer (timer.h is not part of this model): how a timer accumulates time is not modelled. Which timers time out during a frame is an input of `Enemies.Enemy.OnUpdate`, the repeating skill timer any number of times. A timer's configuration is recorded as a `TimerSetup`.
- Animation (animation.h is not part of this model): `set_loop`, `set_interval` and `set_frame_data` are recorded as an `AnimSetup` per animation. An animation's own `on_update` is recorded as a log entry, and its `on_render` as a `DrawSprite` command.
- Vector2 (vector2.h is not part of this model): `approx_zero`, `normalize` and `operator<` are parameters (`EnemyMotion.VectorOps`). The no-overshoot lemmas assume that `<` compares lengths (`EnemyMotion.RanksByLength`). A default-constructed vector is taken to be (0, 0).
- Route (route.h is not part of this model): a route is its list of waypoint cells.
- Route setter: the code that assigns a route is not part of enemy.h, so the field is set directly. A missing route is a precondition of `Enemies.Enemy.OnUpdate` exactly on the frames that reach a waypoint, where the source would follow a null pointer.
- Enemies.Enemy.OnRender: requires a current animation, which the source dereferences and which is null before the first update.
- Enemies.Enemy.OnRender: requires a non-zero `max_hp` when wounded, because otherwise the source divides by zero before an `(int)` cast with no defined result.
- Skill effect: `on_skill_released` is never assigned in enemy.h or goblin_priest_enemy.h, and what a skill does is not part of the enemy. The model records only whether a callback is assigned and counts its invocations.
- Enemies.Enemy.OnSkillReleased: the skill callback receives the enemy and could change any of its fields. The model assumes it leaves every field of this enemy unchanged. `Enemies.Enemy.OnUpdate` depends on that assumption for its clauses on `speed`, on `isShowSketch`, and on the new motion being `Advance` of the old one, and for the fields its frame keeps unchanged (`hp` among them).
- Enemies.Enemy.OnUpdate: requires an assigned skill callback on frames where the skill timer fires. With none, the source throws `std::bad_function_call` from inside the skill timer's update, and the rest of `on_update` does not run; that exception path is not modelled.
- ConfigManager and ResourcesManager: the tile map's origin and the tile size `SIZE_TILE` are a `TileMap` value, and the size is taken to be a positive integer. Textures are `TextureId` handles, and the priest's template is an `EnemyTemplate` argument.
- Floating point and integer width: doubles are exact reals, so rounding is not modelled; `(int)` casts are modelled exactly by `Trunc`. Overflow of the integer tile arithmetic is not modelled.
- `abs` on the velocity components is taken to be the `double` overload.
- The member functions after line 124 of enemy.h (damage, slow-down, skill-callback setter) are elided from that file itself; `is_valid` is modelled only as a field.
