# Player movement, key bindings and render distance of minecraft-rust, in Dafny

This project models three small, deterministic pieces of the game's logic and
proves what they promise.

- **Movement and collision tick** (`controller.dfy`, module `Controller`).
  This is the physics of `player_movement_system`, one tick of which does, in order:
  - a box collision test against every block centre, with a strict margin of 0.75 on each axis;
  - an all-or-nothing horizontal step along the camera-relative movement intent;
  - a jump from the ground, or gravity in the air;
  - the vertical move, with a ground check made at the height before the move;
  - a respawn at (0, 1, 0) once `y - 1` falls below -10.

  The `Player` class holds the updated state: the translation, the vertical
  velocity and the on-ground flag. Its `MovementTick` updates these in place,
  stage by stage. It is proved equal to the pure `Tick` function, and the
  lemmas are about `Tick` and its stages.
- **Action bindings** (`keyboard.dfy`, module `Keyboard`).
  - The three "is some key bound to this action pressed / just pressed / just released" queries over an ordered map from action to key list.
  - The partial lookup `GetActionKeys`.
  - `GetBindings`, which returns the stored bindings when they could be read and parsed, and otherwise builds the seventeen-entry default table.
- **Render distance** (`render_distance.dfy`, module `RenderDistanceSystem`).
  The `u32` counter, and the system that updates it in place:
  - a stored 0 is replaced by the default;
  - Minus decrements;
  - Plus increments.

  The arithmetic is checked: a decrement at 0 or an increment at `u32::MAX` is a fault (`Underflow` / `Overflow`) instead of a value.

Inputs the model takes as parameters:
- the engine's keyboard state, as `ButtonInput` with three key sets;
- the key map;
- the camera's forward and right vectors;
- the frame time `dt`;
- the vector normalisation, as a function `Vec3 -> Vec3`;
- the block centres, as `seq<Vec3>`;
- the outcome of reading the bindings file, as `Option<KeyMap>`;
- the default render-distance radius.

Three points where the code behaves differently from what a reader might expect:
- After landing on a block, the position is not snapped on top of it. The new height is always the old height plus `v * dt`.
- The ground check is made under the height from before the vertical move, not under the new position.
- The render distance has no lower clamp at 1. Minus at 1 stores 0, and the next run replaces the 0 with the default.

## Model

| member | source | states |
|---|---|---|
| Controller.IsBlockAtPosition | src/player/controller.rs:6-22 | the search returns true exactly when some block centre is strictly within 0.75 of the point on all three axes (`BlockAt`) |
| Controller.MoveDirection | src/player/controller.rs:72-86 | the intent built by the four sequential key tests equals the flattened forward vector (plus for forward alone, minus for backward alone, nothing for both or neither) added to the same for right/left, and it has no vertical component |
| Controller.OppositeKeysCancel | src/player/controller.rs:72-89 | no movement key, or only pairs of opposite keys, gives a zero intent, so no horizontal step |
| Controller.HorizontalStep | src/player/controller.rs:89-102 | without intent the position is kept; with intent it becomes the tentative position when no block is at (new x, current y, new z) and is kept otherwise |
| Controller.NoIntentKeepsHorizontalPosition | src/player/controller.rs:72-102 | without movement intent a whole tick keeps x and z, unless it ends in the respawn state (at the spawn point, at rest, grounded) |
| Controller.StepIsAllOrNothing | src/player/controller.rs:89-102 | with intent, the stepped position is the whole tentative step when no block is in the way and exactly the old position when one is: no axis slides alone |
| Controller.BlockedStepKeepsHorizontalPosition | src/player/controller.rs:89-139 | moving into a block at (new x, current y, new z) leaves x and z unchanged at the end of the whole tick, unless it ends in the respawn state |
| Controller.JumpOrFall | src/player/controller.rs:105-112 | jump from the ground sets the velocity to 10 and leaves the ground; in the air the velocity changes by -39.2·dt; on the ground without jump nothing changes; the position is untouched |
| Controller.GroundCheck | src/player/controller.rs:115-132 | the new y is old y + v·dt whether or not a block is below; on-ground becomes "a block at (x, old y - 1, z)"; the velocity is reset to 0 exactly when grounded |
| Controller.Respawn | src/player/controller.rs:135-139 | when y - 1 < -10 the body becomes (0, 1, 0), at rest and grounded; otherwise it is unchanged |
| Controller.Tick | src/player/controller.rs:72-139 | end-of-tick invariant: on the ground implies zero vertical velocity |
| Controller.Stepped | src/player/controller.rs:89-102 | the horizontal stage changes only the position |
| Controller.VerticalStages | src/player/controller.rs:105-139 | the velocity used by the vertical move (jump impulse, gravity, or unchanged); the landing height old y + v·dt; grounded and at rest exactly when a block was under the old height; respawn exactly when the landing height is below the floor |
| Controller.GroundedAfterVerticalStages | src/player/controller.rs:118-139 | a block just under the body makes the vertical stages end grounded with zero velocity, respawned or not |
| Controller.BlockBelowGrounds | src/player/controller.rs:118-139 | a block under the position after the horizontal step makes the whole tick end grounded and at rest |
| Controller.LevelStepKeepsHeight | src/player/controller.rs:89-102 | a level normalised intent leaves the height unchanged through the horizontal step |
| Controller.FallingBelowFloorRespawns | src/player/controller.rs:105-139 | an airborne body below the floor height, not rising, with dt >= 0, ends the vertical stages at the spawn point, at rest and grounded |
| Controller.SteppedStaysBelowFloor | src/player/controller.rs:72-102 | the horizontal step keeps such a body airborne, not rising and below the floor height |
| Controller.AirborneBelowFloorRespawns | src/player/controller.rs:72-139 | a whole tick of an airborne, non-rising player below the floor height (for example at y = -11) respawns it, whatever keys are held |
| Controller.Player.constructor | src/player/controller.rs:42 | the player entity the tick works on (its translation, velocity and on-ground flag) starts with the given values; the `Player` component itself is defined in a file that is not part of this model |
| Controller.Player.MovementTick | src/player/controller.rs:61-139 | the in-place update leaves the fields equal to `Tick` of the old fields, and on the ground implies zero vertical velocity |
| Controller.Player.StepHorizontally | src/player/controller.rs:89-102 | the translation becomes `HorizontalStep` of the old one; velocity and on-ground are kept |
| Controller.Player.ApplyJumpOrGravity | src/player/controller.rs:105-112 | the fields become `JumpOrFall` of the old ones |
| Controller.Player.MoveVerticallyAndCheckGround | src/player/controller.rs:115-132 | the fields become `GroundCheck` of the old ones |
| Controller.Player.RespawnBelowWorld | src/player/controller.rs:135-139 | the fields become `Respawn` of the old ones |
| Keyboard.AnyKeyIn | client/src/input/keyboard.rs:25-29 | the in-order scan finds a key exactly when some key of the list is in the set |
| Keyboard.IsActionPressed | client/src/input/keyboard.rs:19-32 | true exactly when the action has an entry and one of its keys is pressed |
| Keyboard.IsActionJustPressed | client/src/input/keyboard.rs:34-47 | true exactly when the action has an entry and one of its keys was just pressed |
| Keyboard.IsActionJustReleased | client/src/input/keyboard.rs:49-62 | true exactly when the action has an entry and one of its keys was just released |
| Keyboard.UnboundActionIsInactive | client/src/input/keyboard.rs:24-61 | an action with no entry or an empty key list satisfies none of the three queries |
| Keyboard.MoreKeysKeepAnyKey | client/src/input/keyboard.rs:25-29 | appending keys to a list never turns a found key into none found |
| Keyboard.BindingMoreKeysIsMonotonic | client/src/input/keyboard.rs:24-61 | binding more keys to an action never turns a true query result into false, for all three queries |
| Keyboard.GetActionKeys | client/src/input/keyboard.rs:64-66 | returns the bound list unchanged and in order; requires the action to be bound, as the unwrap does |
| Keyboard.PressedIffSomeListedKeyPressed | client/src/input/keyboard.rs:19-66 | a bound action is pressed exactly when one of the keys the lookup returns is pressed |
| Keyboard.Ordinal | client/src/input/keyboard.rs:83-111 | each action's position in the table's insertion order |
| Keyboard.DistinctCount | client/src/input/keyboard.rs:80-114 | a list of distinct actions has as many elements as its set of actions |
| Keyboard.ActionOrderIsDistinct | client/src/input/keyboard.rs:83-111 | the table inserts no action twice |
| Keyboard.DefaultKeys | client/src/input/keyboard.rs:83-111 | the default key list of each action, written per action, is nonempty |
| Keyboard.DefaultTableBinds | client/src/input/keyboard.rs:80-114 | the default map binds each action to its per-action key list, e.g. MoveForward to [KeyW, ArrowUp] and Jump to [Space] |
| Keyboard.DefaultTableBindsSeventeenActions | client/src/input/keyboard.rs:80-114 | the default map binds exactly seventeen actions, every action, each to a nonempty list |
| Keyboard.SpacePressesJumpAndFlyUp | client/src/input/keyboard.rs:99-105 | with the defaults, holding Space makes both Jump and FlyUp pressed |
| Keyboard.GetBindings | client/src/input/keyboard.rs:68-115 | a successfully read and parsed map is returned as is; otherwise the seventeen insertions build exactly the default table |
| Keyboard.BindsAsDefault | client/src/input/keyboard.rs:80-114 | a map binding every action to its default key list equals the default table, so the seventeen insertions need only be checked action by action |
| RenderDistanceSystem.Update | client/src/world/render_distance.rs:12-27 | underflow exactly when Minus meets 0 after default substitution; overflow exactly when Plus meets `u32::MAX`; otherwise the result is the substituted value minus 1 for Minus plus 1 for Plus |
| RenderDistanceSystem.PositiveDefaultNeverUnderflows | client/src/world/render_distance.rs:16-21 | with a default of at least 1 the decrement never underflows |
| RenderDistanceSystem.MinusAndPlusCancel | client/src/world/render_distance.rs:20-26 | Minus and Plus together leave the substituted value unchanged |
| RenderDistanceSystem.IdleRunKeepsDistance | client/src/world/render_distance.rs:16-26 | with no key and a nonzero distance the value is unchanged |
| RenderDistanceSystem.NoLowerClamp | client/src/world/render_distance.rs:16-21 | Minus at 1 stores 0, and a run from 0 behaves as a run from the default |
| RenderDistanceSystem.RenderDistance.constructor | client/src/world/render_distance.rs:7-10 | the derived default distance is 0 |
| RenderDistanceSystem.RenderDistance.UpdateSystem | client/src/world/render_distance.rs:12-27 | the in-place update leaves the distance, and the fault if one occurs, equal to `Update` of the old distance and the two just-pressed queries |

## Left out

- The Escape exit, view-mode toggling and the material colour changes (src/player/controller.rs:32-59) are process control and rendering. `toggle_view_mode` is not part of this model.
- The camera's `forward()`/`right()` vectors and `normalize()`: the vectors and the normalisation are parameters. The model holds no fact about `normalize` beyond what a lemma requires of it.
- Tick: `f32` rounding is not modelled; positions, velocities and `dt` are reals.
- Tick: the test `length_squared() > 0` is stated as "the intent is not the zero vector", which is equivalent over the reals.
- The blocks the collision test sees are every transform without the `Player` component, the camera included; the model takes them as a plain list of centres.
- `is_action_*`: the callers in controller.rs and render_distance.rs pass two arguments, while keyboard.rs takes a key map as well. The model passes the key map explicitly.
- `GameAction` is defined in a file that is not part of this model; the model's enumeration has the seventeen actions the default table binds.
- `get_bindings`: the file read and the RON parsing are one `Option<KeyMap>` input. `save_keybindings` is file I/O and is left out.
- `DEFAULT_CHUNK_RENDER_DISTANCE_RADIUS` is defined in a file that is not part of this model, so it is a parameter of the update.
- RenderDistanceSystem.Update: models the overflow-checked build, where the `u32` decrement at 0 and increment at `u32::MAX` panic. The wrapping behaviour of a build without overflow checks is not modelled.
- cube-bevy/src/main.rs (camera orbit), client/src/game.rs (plugin registration), server/src/init.rs (network transport) and client/src/input/mouse.rs (cursor grab) are engine glue, not logic.
- The chunk store, chunk streaming, raycasting and network sync are only referenced from client/src/game.rs. Their code is not part of this model.
