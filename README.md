# Player character controller of a 2D platformer, in Dafny

This project models the `Player` entity of a tile-based 2D platformer
(`src/ts/game/entity/player.ts`). Once per frame the player:

- advances its animation clock;
- runs down four countdown timers and re-arms them. Three are "coyote time"
  grace windows, for the ground, the left wall and the right wall. The fourth
  is the jump buffer, which remembers an early jump press;
- resolves a buffered jump from the first open grace window: ground, then left
  wall, then right wall. A wall jump kicks the player away from the wall at run
  speed;
- steers left or right, or damps horizontal motion;
- applies gravity, easing a fast fall halfway towards the wall-slide speed or
  the maximum fall speed;
- checks for the goal.

A separate pure function picks the sprite animation.

Modules:

- `Physics` (`physics.dfy`): the facing direction, the two grace-window
  constants (0.1 s each) and the movement tuning. The tuning is derived from
  the physics scale and the frame rate.
- `Animation` (`animation.dfy`): `getAnimationName` as a pure function.
- `PlayerSpec` (`player_spec.dfy`): the player's state as a value and one
  function per operation. `Update` is one frame and `Run` is a sequence of
  frames. These functions are the specification of the class methods.
- `PlayerProperties` (`player_properties.dfy`): lemmas about one or many frames.
  They cover coyote time, jump buffering, buffer retention, the run-speed bound
  and the soft clamps.
- `PlayerEntity` (`player.dfy`): class `Player`. Its fields are updated in place
  by methods whose bodies follow the source statement by statement. Each method
  with a `PlayerSpec` counterpart is proved to leave the object in the state
  that function gives. `CountDownTimers` and `ReArmGraceTimers`, the two halves
  of the timer step, state the new value of each field they change.

Inputs and effects:

- The collision queries become per-frame booleans in `Surroundings`:
  `isStanding`, `isAgainstLeftWall`, `isAgainstRightWall` and the goal check.
- The keyboard becomes `Keys`: the jump press edge and the left and right held
  keys. An entity not controlled by the player reads `NullKeys`.
- Sounds and the win signal are recorded in an event sequence (ghost in the
  class).
- Speeds and times are `real`. The source uses only addition, subtraction,
  multiplication by constants and comparison on them.

Behaviour of `player.ts` that the model keeps as written:

- The wall-slide easing in `applyGravity` (line 215) applies whenever the
  player touches a wall, whether or not it stands.
- The timers are not kept non-negative (lines 143-154). A window with less
  time left than the frame's step drops below zero and stays there until
  re-armed (`PlayerProperties.TimersCanGoNegative`).
- The file has one jump mechanism: the jump buffer released through the
  grace timers (lines 174-190).

Notes on the statements:

- `moveLeft` never increases `dx` only when `dx >= -runSpeed` beforehand. Below
  that, its one-sided clamp raises `dx` to `-runSpeed`. `moveRight` is
  symmetric. Within the model, `|dx| <= runSpeed` holds from frame to frame
  (`PlayerProperties.RunWithinRunSpeed`).
- The coyote-time and jump-buffer lemmas are stated for frames without wall
  contact. Those are the situations the two mechanisms are meant for.

## Model

| member | source | states |
|---|---|---|
| `Physics.PlayerTuning` | src/ts/game/entity/player.ts:20-43 | every constant is positive; wallSlideSpeed < runSpeed < jumpSpeed = maxFallSpeed; groundAccel is twice airAccel |
| `Animation.GetAnimationName` | src/ts/game/entity/player.ts:46-77 | loop is always true; "wall-slide" exactly when airborne against a wall, facing Right for the left wall and Left for the right wall; in the air away from walls "jump-up" below -0.3 jumpSpeed, else "jump-down" above 0.3 jumpSpeed, else "jump-mid"; standing gives "run" exactly when abs(dx) > 0.01, else "idle"; the facing is kept except when wall sliding |
| `Animation.Examples` | src/ts/game/entity/player.ts:62-75 | with jumpSpeed 180, falling at 90 is "jump-down", rising at 90 is "jump-up"; standing at dx 0.005 is "idle"; airborne against the left wall is "wall-slide" facing Right |
| `PlayerSpec.TimerStep` | src/ts/game/entity/player.ts:143-172 | each contact sets its window to COYOTE_TIME_SECS and a press sets the buffer to BUFFER_JUMP_TIME_SECS; otherwise a positive timer loses dt and a timer at or below 0 is unchanged |
| `PlayerSpec.ChooseJump` | src/ts/game/entity/player.ts:174-190 | a jump happens exactly when the buffer is positive and some grace window is open; the priority is ground, then left wall, then right wall |
| `PlayerSpec.ResolveJump` | src/ts/game/entity/player.ts:174-190 | no jump leaves the state unchanged; any jump sets dy to -jumpSpeed, zeroes all four timers and adds one jump sound; a left-wall jump sets dx to runSpeed facing Right; a right-wall jump sets dx to -runSpeed facing Left; a ground jump keeps dx and the facing |
| `PlayerSpec.MoveLeft` | src/ts/game/entity/player.ts:120-128 | dx >= -runSpeed and the facing is Left afterwards; dx drops by the ground or air acceleration times dt unless that passes -runSpeed; dx never increases when dt >= 0 and dx started at or above -runSpeed; nothing else changes |
| `PlayerSpec.MoveRight` | src/ts/game/entity/player.ts:130-138 | the mirror image of MoveLeft: dx <= runSpeed, facing Right, dx never decreases from at or below runSpeed |
| `PlayerSpec.ChooseSteering` | src/ts/game/entity/player.ts:192-202 | left alone steers left, right alone steers right, and neither or both damps; exactly one of the three per frame |
| `PlayerSpec.SoftClamp` | src/ts/game/entity/player.ts:215-226 | above the limit the excess is halved, so the result stays strictly between the limit and the old value; at or below the limit nothing changes |
| `PlayerSpec.OnDownCollision` | src/ts/game/entity/player.ts:234-239 | a land sound is added exactly when dy > 0.5 jumpSpeed; nothing else changes |
| `PlayerProperties.UpdateTimersAndEvents` | src/ts/game/entity/player.ts:140-212 | a frame's timers depend only on the timers, the surroundings, the effective jump press and dt; the frame adds a jump sound exactly when it jumps, then a win exactly when the goal is touched |
| `PlayerProperties.RunTimersAgree` | src/ts/game/entity/player.ts:140-190 | over any sequence of frames, the timers of the whole state follow the timer-only evolution, and controlledByPlayer never changes |
| `PlayerProperties.DrainOpen` | src/ts/game/entity/player.ts:143-154 | with non-negative steps, a countdown is still open after the frames exactly when its start exceeds the total time, and then it has dropped by exactly that time; a closed countdown never moves |
| `PlayerProperties.QuietRun` | src/ts/game/entity/player.ts:143-190 | in the air, away from walls and without presses, starting with no buffered jump or no open window: no frame jumps (`NoJumpIn`) and each timer just runs down |
| `PlayerProperties.QuietRunSilent` | src/ts/game/entity/player.ts:174-190 | under the same conditions, on the whole state, the events already asked for are kept and no jump sound is added |
| `PlayerProperties.GraceWindow` | src/ts/game/entity/player.ts:170-188 | a press in the air after quiet frames jumps, from the ground, exactly when the ground window left exceeds the time elapsed including the pressing frame |
| `PlayerProperties.CoyoteTime` | src/ts/game/entity/player.ts:140-188 | after one standing frame without a jump and then quiet frames, a press in the air jumps exactly when less than COYOTE_TIME_SECS has passed |
| `PlayerProperties.JumpBuffer` | src/ts/game/entity/player.ts:152-188 | a press in the air with every window closed does not jump; landing after quiet frames jumps from the ground exactly when less than BUFFER_JUMP_TIME_SECS has passed since the press |
| `PlayerProperties.BufferRetained` | src/ts/game/entity/player.ts:174-190 | with no window open, no jump happens, no jump sound is added and the buffer is kept, not cleared |
| `PlayerProperties.TimersCanGoNegative` | src/ts/game/entity/player.ts:143-154 | a timer with 0.05 s left loses a 0.1 s step and goes to -0.05, then stays there |
| `PlayerProperties.UpdateWithinRunSpeed` | src/ts/game/entity/player.ts:120-138 | with positive tuning and dt >= 0, a frame keeps dx within [-runSpeed, runSpeed] |
| `PlayerProperties.RunWithinRunSpeed` | src/ts/game/entity/player.ts:120-188 | the same bound holds across any sequence of frames; the exact wall-kick speeds are stated by `PlayerSpec.ResolveJump` |
| `PlayerProperties.WallSlideEases` | src/ts/game/entity/player.ts:215-220 | against a wall, a fall faster than wallSlideSpeed loses half its excess before gravity and stays above wallSlideSpeed |
| `PlayerProperties.FallEases` | src/ts/game/entity/player.ts:221-226 | away from walls, a fall faster than maxFallSpeed loses half its excess before gravity and stays above maxFallSpeed |
| `PlayerEntity.Player.constructor` | src/ts/game/entity/player.ts:31-44 | the tuning comes from the physics scale and frame rate; all four timers are 0; controlled by the player; no events |
| `PlayerEntity.Player.Jump` | src/ts/game/entity/player.ts:105-113 | dy becomes -jumpSpeed; all four timers become 0; one jump sound is added; dx, facing, animCount, xDampAmt and controlledByPlayer are unchanged |
| `PlayerEntity.Player.DampX` | src/ts/game/entity/player.ts:115-118 | xDampAmt becomes groundAccel when standing and airAccel otherwise; nothing else changes |
| `PlayerEntity.Player.MoveLeft` | src/ts/game/entity/player.ts:120-128 | dx >= -runSpeed and facing Left afterwards; dx does not increase from at or above -runSpeed; the new state is PlayerSpec.MoveLeft of the old |
| `PlayerEntity.Player.MoveRight` | src/ts/game/entity/player.ts:130-138 | dx <= runSpeed and facing Right afterwards; dx does not decrease from at or below runSpeed; the new state is PlayerSpec.MoveRight of the old |
| `PlayerEntity.Player.CountDownTimers` | src/ts/game/entity/player.ts:143-154 | each positive timer loses dt; the others are unchanged |
| `PlayerEntity.Player.ReArmGraceTimers` | src/ts/game/entity/player.ts:156-164 | each touched surface's window becomes COYOTE_TIME_SECS; the others are unchanged |
| `PlayerEntity.Player.AdvanceTimers` | src/ts/game/entity/player.ts:143-172 | the timers become PlayerSpec.TimerStep of the old timers; nothing else changes |
| `PlayerEntity.Player.ResolveBufferedJump` | src/ts/game/entity/player.ts:174-190 | the new state is PlayerSpec.ResolveJump of the old |
| `PlayerEntity.Player.SteerHorizontally` | src/ts/game/entity/player.ts:192-202 | the new state is that of the one action PlayerSpec.ChooseSteering picks |
| `PlayerEntity.Player.ApplyGravity` | src/ts/game/entity/player.ts:214-232 | dy is soft-clamped towards wallSlideSpeed against a wall, or towards maxFallSpeed elsewhere, and then gains gravity times dt |
| `PlayerEntity.Player.OnDownCollision` | src/ts/game/entity/player.ts:234-239 | a land sound is added exactly when dy > 0.5 jumpSpeed |
| `PlayerEntity.Player.Update` | src/ts/game/entity/player.ts:140-212 | the new state is PlayerSpec.Update of the old: clock, timers, jump, steering, gravity and goal, in the source's order |

## Left out

- `render`, `Aseprite.drawAnimation` and `preload`: canvas drawing and
  asynchronous asset loading through a library that is not part of this model.
- `cameraFocus`: its facing offset is multiplied by 0, so it returns the
  player's anchor point, and positions are not modelled.
- Position, size (`w`, `h`) and `moveX`/`moveY`: tile collision resolution
  belongs to the `Entity` base class and the tile layers, which are not part of
  this model. So do the damping that `Entity.dampX` applies with `xDampAmt` and
  whatever `Entity.onDownCollision` does after the land sound. The model's frame
  ends after gravity and the goal check.
- The collision queries are taken once per frame. In the source,
  `isStanding()` and the wall checks are asked at several points of `update`.
  Nothing between those points moves the player, so the model assumes they
  answer the same. The goal check comes after the position update in the source
  and is taken as that later answer.
- The starting values of `dx`, `dy`, `facingDir`, `animCount` and `xDampAmt`
  come from `Entity`, which is not part of this model.
- `PHYSICS_SCALE` and `FPS` come from a constants file that is not part of this
  model. They are positive parameters of `Physics.PlayerTuning`.
- Key polling through `level.game.keys`: replaced by the `Keys` input.
- `SFX.play` and `level.win`: recorded as events. Audio and level state are not
  modelled.
- Floating-point rounding: the model uses exact reals.
