# Missileman game logic in Dafny

This project models three sequential pieces of Missileman's game logic and proves
properties of them.

**Tile kinematics and the fixed-step driver** (`scripts/world.js`) come in two modules:

- `Kinematics` is pure. It holds:
  - the helpers `bound`, `tcell` and `overlap`;
  - one fixed step of an entity as the function `Step`, which covers forces and the
    one-shot jump impulse, Euler integration, the velocity clamps, collision snapping
    against the flat tile grid and the recomputed `falling` flag;
  - `Run`, which is n steps in a row;
  - `Drain`, which models the `while (dt > step)` accumulator.
- `World` is imperative. It has two classes:
  - `Entity`, whose fields one step overwrites in place;
  - `World`, which owns the grid, the player list, `ticks`, `dt` and `last`.

  `updateEntity`, `update`, the render-frame loop, `killPlayers` and `clear` are methods
  that change those fields. Each is proved against the pure functions:
  - `Update` takes a ghost start list and count n. A player that had run n steps from
    its start motion has run n + 1 afterwards (one `Step` more).
  - `RunBankedSteps` and `OnRender` return, as ghost values, the players' motions on
    entry (`before`) and the number of steps run. Each player's motion afterwards is
    `Run` of its `before` motion over that many steps.

The rules the grid follows:

- A tile blocks movement when its value is non-zero, so target tiles (2) block like
  walls (1).
- A flat index outside the array reads as empty.
- A column index of 64 spills into the next row.
- `x % 1` is the truncated fractional part. It counts only through being non-zero.
- y grows downward: gravity is added to `ddy`, and landing is tested on `dy > 0`.
- A step does not keep the entity out of solid tiles. x moves by the velocity at entry,
  but the wall tests read the velocity after the zero clamp. When friction stops the
  entity in the step that carries it into a wall, no wall test runs, and the step ends
  with the entity's own tile solid (`FrictionStopEntersWall`).

The accumulator loop runs while `dt > step`, so the remainder it keeps can equal one
whole step. `clear` resets `ticks` and puts the players back at their start; it leaves
`dt` and `last` alone.

**The player controller** (`src/player.js`), module `Player`, models:

- the held-key record and its reset;
- the morph trigger, which fires on the rising edge of the morph key only;
- the man-form run, jump and gravity forces;
- the missile-form steering torque;
- the man-form velocity limit.

The morph object is abstracted to its `isMan` flag plus a ghost count of the
transitions requested. The controller keeps a ghost history of the morph-key values it
was given since its keys were last reset, and the count of transitions requested before
that reset. Its invariant ties the transition count to the rising edges of that history.
The man-form forces subtract gravity from `force.y`, so y grows upward for the
controller. The velocity limit clamps both axes with the vertical speed constant, as the
code does. The horizontal constant is declared but unused there; both are 10.

**The session state machine** (`missileman.js`), module `Session`, models:

- the closure variables `demo`, `currentLevel` and `replays`;
- the handlers for losing, winning, starting from the title and quitting.

`load` is abstracted to a log of the level number and input list it was given. The pure
`Handle` and `RunEvents` functions specify the handlers, and the class `Session.Session`
is proved against them. The class keeps a ghost history of the events it handled; its
invariant says that its variables are `RunEvents` of that history from the start, and
that its log of loads is the first load followed by `LoadsOf` that history.

## Model

| member | source | states |
|---|---|---|
| Kinematics.Bound | scripts/world.js:20-22 | the result lies in [lo, hi] whenever lo <= hi; x comes back unchanged when already in range; below the range it is lo, above it hi |
| Kinematics.TCell | scripts/world.js:24 | a non-empty read always comes from inside the grid, at flat index tx + 64·ty: everything outside the array reads as the empty tile |
| Kinematics.MapTiles | scripts/world.js:24 | on a grid of the map's 64 × 48 tiles, an in-range column and row read the element at tx + 64·ty, and every in-range column of a row above or below the map reads as empty |
| Kinematics.ColumnWraps | scripts/world.js:24 | column 64 of a row is column 0 of the next row: no 2-D bounds check |
| Kinematics.SolidIsWallOrTarget | scripts/world.js:24 | on a grid of 0/1/2 tiles, solid means wall or target: targets block like walls |
| Kinematics.Overlap | scripts/world.js:27-32 | for boxes at least one pixel in each direction, the test holds exactly when the pixel on the later left edge and the later top edge lies in both |
| Kinematics.OverlapSymmetric | scripts/world.js:27-32 | the rectangle test is symmetric in its two rectangles |
| Kinematics.OverlapExamples | scripts/world.js:27-32 | `overlap(0,0,2,2,1,1,2,2)` holds and `overlap(0,0,2,2,3,3,2,2)` does not |
| Kinematics.OverlapIffSharedPixel | scripts/world.js:27-32 | for rectangles at least one pixel in each direction, the test holds exactly when some pixel lies in both |
| Kinematics.JsRem1NonZero | scripts/world.js:93-94 | the truncated remainder `v % 1` is non-zero exactly when v is not a whole number |
| Kinematics.HorizontalAccel | scripts/world.js:53-74 | both direction keys held cancel out; one key held accelerates toward it; with no key held, friction opposes the motion and nothing acts on an entity at rest |
| Kinematics.Accelerations | scripts/world.js:59-79 | setting the accelerations leaves position, velocity and `falling` alone and never clears `jumping` |
| Kinematics.Euler | scripts/world.js:81-89 | both velocity components end within their limits, and dx never changes sign: the jiggle clamp zeroes it instead |
| Kinematics.SnapY | scripts/world.js:100-119 | vertical snapping leaves x and dx alone, and either changes nothing or stops vertical motion with y on floor(y) or floor(y)+1 |
| Kinematics.SnapX | scripts/world.js:121-134 | horizontal snapping leaves y, dy and the flags alone, and either changes nothing or stops horizontal motion with x on floor(x) or floor(x)+1 |
| Kinematics.Resolve | scripts/world.js:91-136 | collision resolution only ever zeroes a velocity component, and moves the entity by at most one tile on each axis |
| Kinematics.Step | scripts/world.js:52-138 | after one step dx lies in [-maxdx, maxdx] and dy in [-maxdy, maxdy], since the clamps are followed only by assignments of zero; a step never reverses horizontal motion |
| Kinematics.RunVelocityBounded | scripts/world.js:83-134 | the velocity bounds hold after any number of steps from a state within them |
| Kinematics.StepJump | scripts/world.js:55-79 | ddy is gravity minus the impulse exactly when jump is held and the entity was neither jumping nor falling at entry, otherwise gravity; the step leaves `jumping` set after an impulse unless it lands |
| Kinematics.StepSnapsVertically | scripts/world.js:100-119 | landing sets y to floor(y), dy to 0 and clears jumping; a ceiling bump sets y to floor(y)+1 and dy to 0; otherwise the integrated y and dy stay |
| Kinematics.StepSnapsHorizontally | scripts/world.js:121-134 | a wall on the right sets x to floor(x), one on the left to floor(x)+1, and dx to 0 in both cases; otherwise the integrated x and dx stay |
| Kinematics.StepFalling | scripts/world.js:91-136 | at exit, falling is `!(celldown solid or (x % 1 != 0 and celldiag solid))`, sampled at the floor of the integrated position |
| Kinematics.StandingIsStable | scripts/world.js:52-138 | an entity at rest on a solid tile, with an empty tile at its own place and no key held, stays put, at rest, neither falling nor jumping |
| Kinematics.FrictionStopIntegrates | scripts/world.js:53-89 | in the wall example, friction stops the entity (dx = 0) while x moves by the entry velocity from 1.005 to just below 1 |
| Kinematics.FrictionStopSamples | scripts/world.js:91-98 | in the wall example the entity's own tile and the diagonal one are solid, the right and lower ones empty |
| Kinematics.FrictionStopResolves | scripts/world.js:100-134 | in the wall example resolution lands the entity and runs no wall test, since dx is already 0 |
| Kinematics.FrictionStopEntersWall | scripts/world.js:81-134 | a step from a position whose tile is empty can end with the entity's own tile solid: with no key held, friction zeroes dx while x crosses into a wall tile, and the wall tests read the zeroed dx |
| Kinematics.FrameTime | scripts/world.js:155 | the wall time added per frame is at most one second, and is the elapsed time in seconds when that is below the cap |
| Kinematics.Drain | scripts/world.js:156-159 | the loop runs n whole steps and leaves a remainder r with acc = r + n*step, r <= step, r > 0 once a step ran, r >= 0 for acc >= 0, and n = 0 exactly when acc <= step |
| Kinematics.StepsInDecreases | scripts/world.js:156-159 | each turn of the accumulator loop lowers the whole number of steps banked, so the loop ends |
| Kinematics.DrainExact | scripts/world.js:156-159 | any count and remainder that satisfy the loop's exit facts are exactly what `Drain` returns |
| World.World.constructor | scripts/world.js:142-144 | the world starts with no cells and no players (declared empty at lines 7-9), ticks 0, dt 0 and `last` set to the clock reading |
| World.World.AddBlocks | scripts/world.js:177-178 | the level's tile grid replaces the cells and nothing else changes |
| World.World.AddPlayer | scripts/world.js:172-173 | the player is appended to the list, which keeps each player object once |
| World.World.UpdateEntity | scripts/world.js:52-138 | the entity's motion fields become `Step` of their old values under its controls, tuning and the grid |
| World.World.Accelerate | scripts/world.js:53-89 | the forces and Euler integration, before collisions, as the function `Integrate` |
| World.World.ApplyForces | scripts/world.js:53-79 | ddx, ddy and jumping become those of `Accelerations` and no other field changes |
| World.World.HorizontalForces | scripts/world.js:53-74 | ddx is the held keys' acceleration, or friction against the old motion, halved while falling |
| World.World.VerticalForces | scripts/world.js:60-79 | ddy is gravity, less the impulse when jump is held on the ground, which also sets jumping |
| World.World.EulerStep | scripts/world.js:81-89 | position from the old velocity, clamped velocity from the acceleration, and dx zeroed when friction would flip it, as the function `Euler` |
| World.World.ResolveCollisions | scripts/world.js:91-136 | the motion becomes `Resolve` of the integrated motion against the four tiles sampled at its floor position |
| World.World.SnapVertical | scripts/world.js:100-119 | y snapping as `SnapY`; the row tested next is the row below after a ceiling bump; the returned `y % 1` is non-zero exactly when y was not snapped and is fractional |
| World.World.SnapHorizontal | scripts/world.js:121-134 | x snapping against the given row as `SnapX` |
| World.World.Update | scripts/world.js:145-151 | ticks grows by exactly one and every player, in list order, takes exactly one more `Step`: a player that had run n steps from its start motion has run n + 1 |
| World.World.StepPlayer | scripts/world.js:148-150 | one turn of the loop over the players: player i takes its step, the players before it have taken theirs and those after it keep their motions |
| World.World.OnRender | scripts/world.js:153-161 | the banked time grows by the capped frame time; then `Drain` of it gives the steps run and the remainder kept (<= one step); ticks grows by the steps run; each player's motion is `Run` for that many steps; `last` becomes the frame time |
| World.World.RunBankedSteps | scripts/world.js:156-159 | the loop runs exactly `Drain(dt)` steps, adds them to ticks, leaves the remainder in dt and advances each player by `Run` over that count |
| World.World.Tick | scripts/world.js:157-158 | one turn takes one step out of dt, adds one tick and extends every player's run by one step |
| World.World.KillPlayers | scripts/world.js:44-50 | every player is back at its start position with dx = dy = 0 |
| World.World.Clear | scripts/world.js:168-171 | ticks is 0 and every player is back at its start with zero velocity |
| Player.RunForceX | src/player.js:48-52 | the run force is negative exactly with left held, positive exactly with only right held and zero with neither, so left wins when both are held; it is always of size 50 when non-zero |
| Player.JumpForceY | src/player.js:53-57 | force.y grows exactly while jump is held and shrinks (gravity) otherwise |
| Player.TorqueZ | src/player.js:59-63 | rotation.z grows exactly with left held and shrinks exactly with only right held, and a tick turns by 0 or plus or minus five degrees |
| Player.SteeringCounts | src/player.js:58-63 | over any run of missile-form ticks rotation.z turns by five degrees per tick with left held, less five degrees per tick with only right held, so equal counts give back the starting rotation in any order |
| Player.ClampSpeed | src/player.js:71-72 | the clamped speed is within the limit, equals the input when already within it, keeps its sign and never grows in size |
| Player.Damp | src/player.js:74-78 | damping never grows the speed and keeps its sign; it shrinks a non-zero speed strictly with no key held or with the held key opposing the motion, and leaves it alone when a key is held along it |
| Player.LimitX | src/player.js:71-78 | after clamp and damping v.x is within ±10, keeps its direction and never grows in size; it shrinks strictly with no key held or with the held key opposing the motion, and stays unchanged otherwise when within the limit |
| Player.Presses | src/player.js:88-93 | a run of morph-key values fires at most one transition per value |
| Player.PressesAppend | src/player.js:88-93 | one more morph-key value adds a transition exactly on a rising edge |
| Player.HoldingFiresOnce | src/player.js:88-93 | holding the morph key for any number of ticks after a release fires exactly one transition |
| Player.HeldStaysQuiet | src/player.js:88-93 | holding an already-held morph key fires nothing |
| Player.PressesConcat | src/player.js:88-93 | the transitions of two runs of morph-key values add up, the second run starting from the key the first one left stored |
| Player.ResetRearmsMorph | src/player.js:111-115 | a morph key held across the player's reset fires exactly one transition more than the same values would fire without the reset |
| Player.PressesNeedReleases | src/player.js:88-93 | a run of k values fires at most (k+1)/2 transitions, at most k/2 when the key starts held |
| Player.Keys.constructor | src/player.js:23-24 | every key starts released |
| Player.Keys.Reset | src/player.js:25-27 | left, right, jump and morph all become false |
| Player.Morph.Go | src/player.js:90 | each call records one requested transition |
| Player.Controller.constructor | src/player.js:21-28 | fresh keys, all released, and a fresh morph object with no transitions requested |
| Player.Controller.ResetKeys | src/player.js:111-115 | the key part of the player's reset: all four keys are released, no transition is requested, and the morph history restarts empty with the invariant kept |
| Player.Controller.HandleMorph | src/player.js:88-93 | a transition is requested exactly when the stored key was released and the new value is pressed; the stored key becomes the new value; the count of transitions stays equal to those requested before the last reset plus the rising edges of the values seen since |
| Player.Controller.HandleInput | src/player.js:95-100 | left, right and jump are copied from the message as they are, and the morph key goes through `HandleMorph` |
| Player.Controller.Forces | src/player.js:46-67 | in man form force.x grows by the run force and force.y by the jump or gravity force, and the rotation is untouched; in missile form rotation.z turns by the steering torque |
| Player.Controller.LimitVelocity | src/player.js:69-86 | in man form v.x becomes the clamped-then-damped speed and v.y the clamped speed |
| Session.InitialInv | missileman.js:27-31 | the session starts in the demo on level 0 with no replays, which satisfies the replay invariant |
| Session.Handle | missileman.js:47-82 | every event leaves a non-empty input list to load and keeps the invariant (outside the demo the player's input comes first; the demo plays at most one input); a win raises the level by exactly one, start and quit set it to 0, a loss keeps it |
| Session.RunEvents | missileman.js:47-82 | the invariant holds after any run of events |
| Session.RunEventsSnoc | missileman.js:47-82 | one more event leads to `Handle` of the state so far and adds exactly one load, of the state it leaves |
| Session.LevelCountsWins | missileman.js:56-82 | the current level is the number of wins since the last start or quit |
| Session.LossesAccumulate | missileman.js:47-71 | after a title start, losses append their replays in order behind the player's input: earlier replays are kept |
| Session.DemoLoseReplaces | missileman.js:47-53 | in the demo a loss replaces the replays by the single new one and the demo continues |
| Session.DemoWinHandsOver | missileman.js:56-60 | a win in the demo loads the next level with the player's input while `demo` stays true |
| Session.LoadsOf | missileman.js:53-81 | a run of events issues exactly one load per event, and none of them is given an empty input list |
| Session.Session.constructor | missileman.js:27-85 | demo on, level 0, no replays, and the first load is of level 0 with the demo replay alone; the event history is empty and the session invariant holds |
| Session.Session.Load | missileman.js:40-45 | a load is of the current level with the given inputs |
| Session.Session.OnLose | missileman.js:47-54 | the state becomes `Handle(s, Lose)`: the new replay is appended outside the demo and replaces the list in it; the current list is loaded; the event is appended to the history and the invariant is kept: the variables are `RunEvents` of the history and the loads are the first load then `LoadsOf` the history |
| Session.Session.OnWin | missileman.js:56-60 | the level rises by one, replays become the player's input alone, and that is loaded; the event is appended to the history and the invariant is kept: the variables are `RunEvents` of the history and the loads are the first load then `LoadsOf` the history |
| Session.Session.OnStart | missileman.js:62-71 | demo off, level 0, replays the player's input alone, and that is loaded; the event is appended to the history and the invariant is kept: the variables are `RunEvents` of the history and the loads are the first load then `LoadsOf` the history |
| Session.Session.OnQuit | missileman.js:73-82 | demo on, level 0, replays the demo replay alone, and that is loaded; the event is appended to the history and the invariant is kept: the variables are `RunEvents` of the history and the loads are the first load then `LoadsOf` the history |

## Left out

- Floating point: positions, velocities, times and forces are real numbers. Rounding,
  NaN and infinities are not modelled.
- The fixed step of one sixtieth of a second is written as the exact rational
  `1.0 / 60.0`. `updateEntity`'s `dt` parameter is always `step` in the source, so the
  model fixes it.
- The clock (`timestamp`) becomes the `now` parameter of `OnRender`.
- Not modelled in `scripts/world.js`:
  - the rendering interpolation (`render`, `renderPlayer`, `ty`);
  - the camera follow;
  - the `world.update` event trigger (line 146). Its listeners could change a player's
    keys before each step; without it, `OnRender` and `RunBankedSteps` hold every
    player's `Controls()` fixed across all the steps of one frame;
  - the scene and the avatar and cube meshes.
- World.World.AddPlayer: requires a player object not already in the list. The source
  would push the same object twice, but the model's frames need distinct player objects.
- World.Entity: the tuning fields (accel, friction, gravity, maxdx, maxdy, impulse) and
  the start position are constants. `scripts/world.js` reads them but never writes them.
- Kinematics.OverlapSymmetric: the rectangle test is stated over integer pixel
  coordinates.
- Kinematics.Overlap: its contract speaks only of boxes at least one pixel wide and
  high; for other sizes the test is modelled but nothing is proved about it.
- src/physics/entity.js, the RK4 integrator over position, momentum and orientation, is
  not part of this model. Neither is its collision helper. The controller's hooks are
  not tied to it.
- Player.Controller.Forces: the missile-form thrust is a call into a module that is not
  part of this model. The force vector is left unchanged in missile form, and the
  contract says nothing about it there.
- Player.Controller.LimitVelocity: the missile-form branch rescales by the vector
  length. It is not modelled, and the contract says nothing about v in missile form.
- Player.Morph.Go: the morph module is not part of this model. A transition is only
  counted, and `isMan` does not change.
- The following parts of `src/player.js` are not modelled:
  - `changeToMan` and `changeToMissile`, which set the rotation through `atan2`;
  - `checkCollides`;
  - `update` and `detatchInput`, which only delegate or unsubscribe;
  - the morph and entity parts of the player-level `reset`. `morph.reset` and
    `entity.reset` are in modules that are not part of this model; its key part is
    `Player.Controller.ResetKeys`.
- Session.Session.OnStart and Session.Session.OnQuit: the source defers their load with
  `setTimeout`. The model loads at once, with the values just set.
- Session.Session.OnLose: the source hands `load` the live `replays` array. A later
  loss's `push` therefore also changes a list loaded earlier. The model logs a copy of
  the list at each load.
- Not modelled in `missileman.js`:
  - the fader, scene, title and play overlays;
  - the game loop and input construction;
  - asset loading;
  - the level data `levels.load`.
