# WaveJump player physics in Dafny

This project models the player box of the WaveJump platformer (`Player.java`).
The box is a square of side `length`. Its top-left corner (`x`, `y`) and its
velocity, acceleration and horizontal jerk are doubles. Screen `y` grows
downwards.

The game calls `move` once per tick with the level's solid rectangles, its
light (one-way) floors and the tick length `dt` in milliseconds. One tick does
the following, in order:

- adds the held jerk to the horizontal acceleration; if the speed is already
  past the cap of 6 in the held direction, it zeroes that acceleration instead;
- applies friction while no net direction is held;
- moves by the old velocity, then updates the velocity by `acc * dt / 1000`;
- counts the air-dodge clock;
- pushes the box out of each rectangle in turn (wall first, then floor or
  ceiling) and marks it grounded when its bottom pixel row sits directly on a
  top;
- stops a fall through each light floor.

Keyboard input arrives between ticks as `moveRight`, `moveLeft`,
`stopMovingRight`, `stopMovingLeft`, `jump` and `airDodge`.

The project has five modules:

- `Pixels` (pixels.dfy) is Java's `(int)` cast of a double, which truncates
  toward zero, and the pixel edge `(int)(v + 0.5)` built on it.
- `Level` (level.dfy) holds the solid rectangle `[x, y, width, height]` and
  the light floor `[left, top, right]` as datatypes.
- `Physics` (physics.dfy) is the specification. It has the value
  `PlayerState`, which holds every field of the class and its pixel-edge
  getters. It has one function per command and per phase of a tick. `Tick`
  is one whole `move`. `ResolveRects` and `ResolveLightFloors` are folds over
  the level's lists, written so that they follow `move`'s loops item by item.
- `PhysicsFacts` (physics_facts.dfy) proves the game's promises about those
  functions:
  - input guards and jerk balance;
  - the air-dodge launch and its twelve-tick clock;
  - the speed cap and friction;
  - wall, floor, ceiling and light-floor resolution;
  - the exact condition for being grounded after a tick.
- `Players` (player.dfy) is the class `Player`. Its fields mirror the Java
  fields, and its methods update them in place with the same statements and
  loops as the source. Every method is proved to leave `State()` equal to the
  matching `Physics` function of the old state. The class invariant `Valid()`
  says that the dodge clock is in `0..11` and that gravity (10) pulls exactly
  when no air dodge is running. `Move` and every input command keep it.

Two details of `move` matter for the collision proofs:

- The "previous" pixel edges that the collision tests use are rebuilt from
  the velocity after this tick's update, not from the velocity the box just
  moved by (`PhysicsFacts.PreviousPositionLags`).
- The light-floor wavedash compares `xSpd` with 0.9, not with 0, and adds
  `ySpd` and not `0.9 * ySpd` on that branch. It is modelled as written
  (`PhysicsFacts.LightWavedashAsWritten`).

Doubles are modelled as exact reals. `Math.cos` and `Math.sin` of the two dodge
angles (5.5 and 3.9 radians) are the doubles nearest to the true cosines and
sines, written as decimal constants.

## Model

| member | source | states |
|---|---|---|
| Pixels.JavaIntCast | Player.java:249-251 | The `(int)` cast truncates toward zero: the result is the whole number next to `v` on the side of zero, at most 1 away. |
| Pixels.Pixel | Player.java:249-279 | A pixel edge `(int)(v + 0.5)` is within half a pixel of `v` for `v >= -0.5`. Below that, it rounds up instead of to the nearest pixel. |
| Pixels.PixelShift | Player.java:257-279 | For a non-negative position, moving it by a whole `k` moves its pixel edge by exactly `k`. This is why the right edge is the left edge plus `length`. |
| Pixels.PixelOfWhole | Player.java:249-251 | A whole non-negative coordinate is its own pixel. A whole negative one lands one pixel to the right. |
| Pixels.PixelNotNearestBelowZero | Player.java:265-267 | A position of -1.2 is drawn and tested at pixel 0, not at -1. |
| Physics.FrictionMagnitude | Player.java:226 | The friction term `abs(-0.2 v² + 11)` is never negative. |
| Physics.Friction | Player.java:219-241 | Friction changes only the horizontal speed and acceleration. |
| Physics.DodgeClock | Player.java:71-78 | Counting the dodge clock never moves the box and never touches the controls. |
| Physics.Accelerate | Player.java:59-64 | The jerk step changes only the horizontal acceleration. |
| Physics.Advance | Player.java:66-69 | The motion step changes only position and velocity. |
| Physics.Integrate | Player.java:59-78 | The part of a tick before collisions never changes the length, the jerk or the held directions. |
| Physics.WallStep | Player.java:94-105 | A wall hit either changes nothing or sets `x` and zeroes the horizontal speed and acceleration. |
| Physics.FloorStep | Player.java:108-121 | A floor or ceiling hit does one of three things. It changes nothing. Or it sets `y` and stops vertical motion. Or, when landing, it sets `y`, stops vertical motion and applies the wavedash to `xSpd`. |
| Physics.AfterWall | Player.java:87-105 | The wall half of a rectangle turn leaves the controls, the dodge state, gravity, the clock and the grounded flag alone. |
| Physics.RectSnap | Player.java:87-121 | The same holds for the wall and floor corrections together. |
| Physics.HitRect | Player.java:85-127 | One rectangle turn makes the box grounded exactly when it was grounded already, or when it overlaps the rectangle horizontally before the wall push and its corrected bottom pixel is one above the top. |
| Physics.ResolveRects | Player.java:85-127 | The rectangle loop keeps everything except position, velocity, horizontal acceleration and groundedness. Once grounded, the box stays grounded for the rest of the loop. |
| Physics.LightFloorSnap | Player.java:137-145 | A light floor either changes nothing, or it sets `y`, applies the light-floor wavedash and stops vertical motion. |
| Physics.HitLightFloor | Player.java:130-151 | One light-floor turn makes the box grounded exactly when it was grounded already, or when it is over the floor and its bottom pixel ends one above the floor. |
| Physics.ResolveLightFloors | Player.java:130-151 | The light-floor loop keeps the same fields as the rectangle loop, and it never clears groundedness. |
| PhysicsFacts.MoveRightGuarded | Player.java:191-196 | `moveRight` adds 3 to the jerk only when right was not already held, so a repeated key event is harmless. |
| PhysicsFacts.MoveLeftGuarded | Player.java:199-204 | `moveLeft` subtracts 3 only when left was not already held, so a repeated event is harmless. |
| PhysicsFacts.StopMovingUnguarded | Player.java:207-216 | The stop commands are unguarded: a second stop changes the jerk again. |
| PhysicsFacts.StopUndoesMove | Player.java:191-216 | A press followed by its release restores the state exactly. |
| PhysicsFacts.MatchedInputKeepsJerkBalanced | Player.java:191-216 | Jerk equals 3·(right held) − 3·(left held). That balance survives every press, and every release of a held key. |
| PhysicsFacts.UnmatchedStopBreaksJerkBalance | Player.java:207-216 | Releasing a key that is not held breaks that balance. |
| PhysicsFacts.SpawnAtRest | Player.java:23-46 | A new player is at the given spot with length 20. It is at rest with gravity 10 and no held keys, with the jerk balanced, the clock valid and gravity tied to the (off) dodge flag. |
| PhysicsFacts.JumpGuarded | Player.java:155-160 | A jump happens only when grounded and not dodging. It sets the upward speed and clears the horizontal acceleration, and nothing else. |
| PhysicsFacts.JumpRisesNextTick | Player.java:155-160 | After a jump, the next tick's motion step raises the box by the jump speed. |
| PhysicsFacts.AirDodgeLaunch | Player.java:163-181 | A grounded player cannot dodge. An airborne dodge points downward and to the right unless only left is held. It has speed 6 (squared speed within 0.001 of 36), it turns off gravity and acceleration, and it changes nothing else. |
| PhysicsFacts.AirDodgeVelocity | Player.java:171-179 | The launch velocity is 6 times the cosine and minus 6 times the sine of 3.9 (left) or 5.5 (otherwise). |
| PhysicsFacts.TickKeepsClockValid | Player.java:71-78 | A tick keeps the dodge clock in `0..11`. |
| PhysicsFacts.TickKeepsGravityValid | Player.java:57-152 | If gravity is 10 exactly when not dodging before a tick, the same holds after it, including when the tick ends the dodge. |
| PhysicsFacts.CommandsKeepGravityValid | Player.java:155-241 | Every input command and friction keeps gravity 10 exactly when not dodging. |
| PhysicsFacts.DodgeSwitchesGravity | Player.java:163-189 | Ending a dodge restores gravity 10, and an airborne dodge sets it to 0, from any state. |
| PhysicsFacts.TickCountsDodge | Player.java:71-78 | A tick advances the clock while dodging. The dodge survives the tick exactly when the advanced clock is still below 12. |
| PhysicsFacts.DodgeLasts | Player.java:71-78 | A dodge with clock `c` is still on after `n` ticks whenever `c + n < 12`, whatever the level. The clock then reads `c + n`. |
| PhysicsFacts.HitRectKeepsStill | Player.java:93-121 | A box at rest that is not dodging stays at rest through a rectangle turn. |
| PhysicsFacts.StillStaysStillRects | Player.java:85-127 | It also stays at rest through the whole rectangle loop. |
| PhysicsFacts.StillStaysStillFloors | Player.java:130-151 | It also stays at rest through the whole light-floor loop. |
| PhysicsFacts.DodgeEndsAfterTwelveTicks | Player.java:71-78 | A fresh dodge is still on after 11 ticks. After the 12th it is over: gravity is back, motion is stopped and the clock is 0. |
| PhysicsFacts.SpeedCapHoldsSpeed | Player.java:59-69 | Past the speed cap in the held direction, and with no friction applied, the acceleration is zeroed and the speed is unchanged. |
| PhysicsFacts.JerkAccumulates | Player.java:59-69 | Below the cap and with no friction applied, the jerk adds to the acceleration and the speed grows by `acc * dt / 1000`. |
| PhysicsFacts.FrictionOnlyWhenCoasting | Player.java:219-241 | Friction does nothing while exactly one direction is held, while dodging, or at zero speed. |
| PhysicsFacts.FrictionSlowsRightward | Player.java:225-232 | Coasting right, friction lowers the acceleration by the friction term, or stops the box outright when it would overshoot zero. The next speed is never negative. |
| PhysicsFacts.FrictionSlowsLeftward | Player.java:233-240 | The mirror image: coasting left, the next speed is never positive. |
| PhysicsFacts.CoastingNeverReverses | Player.java:65-69 | A coasting box never reverses its horizontal direction within a tick. |
| PhysicsFacts.WallHitFromLeft | Player.java:94-99 | Coming from the left, a wall hit puts the right pixel edge one left of the wall (for a wall at `x >= 1`) and stops horizontal motion. |
| PhysicsFacts.WallHitFromRight | Player.java:100-104 | Coming from the right, a wall hit puts the left edge one right of the wall and stops horizontal motion. |
| PhysicsFacts.NoWallHit | Player.java:94-105 | Without vertical overlap, without nearness, or when the previous edges were inside the wall span, the wall leaves the box alone. |
| PhysicsFacts.LandOnRect | Player.java:113-126 | Landing on a rectangle from above puts the bottom pixel one above its top and stops the fall. It applies the wavedash and grounds the box when the top is at 1 or more. A top at 0 or less never grounds it. |
| PhysicsFacts.BumpUnderRect | Player.java:109-112 | Hitting a rectangle from below puts the box one pixel under it, stops vertical motion and keeps the horizontal speed. |
| PhysicsFacts.SolidWavedashBoosts | Player.java:116-118 | The solid-floor wavedash adds 0.9 of the fall speed in the direction of travel (leftward when `xSpd <= 0`), and only while dodging. |
| PhysicsFacts.LightFloorSkipped | Player.java:132-134 | A light floor the box is not over changes nothing. |
| PhysicsFacts.LightFloorOneWay | Player.java:137-145 | A light floor never moves a box whose previous bottom was already at or below it: it can be jumped through from below. |
| PhysicsFacts.LandOnLightFloor | Player.java:137-150 | Falling onto a light floor puts the bottom pixel one above it, stops the fall and applies the light-floor wavedash. It grounds the box when the floor is at 1 or more. |
| PhysicsFacts.LightWavedashAsWritten | Player.java:141-143 | The light-floor wavedash as written. For `0 < xSpd <= 0.9` with a real fall it flips the box to moving left, where a solid floor would boost it right. Above 0.9 it adds the full fall speed. |
| PhysicsFacts.RectsGroundedIff | Player.java:85-127 | After the rectangle loop, the box is grounded if and only if it started grounded or some rectangle supported it on its own turn. |
| PhysicsFacts.FloorsGroundedIff | Player.java:130-151 | After the light-floor loop, the box is grounded if and only if it started grounded or some light floor supported it on its own turn. |
| PhysicsFacts.TickGroundedIff | Player.java:80-151 | After a whole tick, the box is grounded if and only if some rectangle or light floor supported it during that tick. |
| PhysicsFacts.PreviousPositionLags | Player.java:66-69 | The reconstructed previous position (position minus velocity) lags the true one by one acceleration step. |
| PhysicsFacts.FreeFall | Player.java:57-80 | With no geometry and no dodge, in a state where gravity is tied to the dodge flag, a tick moves the box down by its fall speed, adds `10 * dt / 1000` to that speed and leaves it ungrounded. |
| PhysicsFacts.TickKeepsControls | Player.java:57-152 | A tick never changes the length, the jerk or the held directions. |
| Players.Player.constructor | Player.java:23-33 | A new player is the spawn state at the origin, with the class invariant holding. |
| Players.Player.At | Player.java:36-46 | A new player is the spawn state at the given location, with the class invariant holding. |
| Players.Player.Move | Player.java:57-152 | One tick updates the fields in place to `Physics.Tick` of the old state. It keeps the class invariant: the dodge clock is in `0..11` and gravity is on exactly when not dodging. |
| Players.Player.Integrate | Player.java:59-78 | The first half of `move` updates the fields to `Physics.Integrate` of the old state. |
| Players.Player.ApplyJerk | Player.java:59-64 | The jerk step updates the fields to `Physics.Accelerate`. |
| Players.Player.CountDodgeTick | Player.java:71-78 | The dodge clock step updates the fields to `Physics.DodgeClock`. |
| Players.Player.CollideWithRect | Player.java:86-126 | One iteration of the rectangle loop updates the fields to `Physics.HitRect`. |
| Players.Player.ResolveWall | Player.java:87-105 | The wall correction updates the fields to `Physics.AfterWall`. |
| Players.Player.ResolveFloor | Player.java:107-121 | The floor correction, given the overlap found before the wall push, updates the fields to `Physics.FloorStep`, or leaves them alone when the rectangle is out of reach. |
| Players.Player.CollideWithLightFloor | Player.java:131-150 | One iteration of the light-floor loop updates the fields to `Physics.HitLightFloor`. |
| Players.Player.Jump | Player.java:155-160 | `jump` updates the fields to `Physics.Jump`. |
| Players.Player.AirDodge | Player.java:163-181 | `airDodge` updates the fields to `Physics.AirDodge`. |
| Players.Player.EndAirDodge | Player.java:184-189 | `endAirDodge` updates the fields to `Physics.EndAirDodge`. It restores gravity from any state, so it also establishes the class invariant whenever the clock is in range. |
| Players.Player.MoveRight | Player.java:191-196 | `moveRight` updates the fields to `Physics.MoveRight`. |
| Players.Player.MoveLeft | Player.java:199-204 | `moveLeft` updates the fields to `Physics.MoveLeft`. |
| Players.Player.StopMovingRight | Player.java:207-210 | `stopMovingRight` updates the fields to `Physics.StopMovingRight`. |
| Players.Player.StopMovingLeft | Player.java:213-216 | `stopMovingLeft` updates the fields to `Physics.StopMovingLeft`. |
| Players.Player.ApplyFriction | Player.java:219-241 | `applyFriction` updates the fields to `Physics.Friction`. |

## Left out

- Drawing and the fill and outline colours (`draw`, `fillColor`, `outlineColor`) are rendering only, with no effect on physics.
- The game loop, the key bindings and the level data (Game.java, PremadeMap) are not part of this model. The level reaches `Move` as its two parameters.
- The `BigInteger tick` parameter of `move` is unused by the method, so it is dropped.
- Doubles are exact reals here, so IEEE rounding of every arithmetic step is not modelled.
- `Math.cos` and `Math.sin` are the doubles nearest to the cosine and sine of 5.5 and 3.9 radians, not the trigonometric functions. Java allows those methods to be off by 1 ulp, and that possible difference is not modelled.
- Java `int` overflow in the rectangle arithmetic (`rect[0] + rect[2]`, `rect[1] - length - 1`) is not modelled. The `(int)` cast's saturation for doubles beyond the `int` range, and for NaN, is not modelled either.
- The plain getters and setters are not modelled: `getX`, `setX`, `setLocation` (which writes both `x` and `y`) and the like. The pixel and centre getters are modelled as `PlayerState` members, and the class exposes them as functions.
- Players.Player.Valid: the class invariant, and the lemmas that assume length 20 or gravity tied to the dodge flag, do not survive the left-out setters. `setLength`, `setYAcc` and `setIsAirDodging` can write any value, so they can break the constant length and the pairing of gravity with the dodge flag.
- Rectangles with negative sizes and inverted light floors are not rejected, because the source does not check them either. The model simply computes what the code computes.
- PhysicsFacts.TickGroundedIff: says which rectangle or floor grounds the box, but not that a box resting on a floor stays there over many ticks. A multi-tick settling scenario is not proved.
- PhysicsFacts.AirDodgeLaunch: states the launch speed to within 0.001 of 6, not exactly 6, because the cosine and sine are the rounded double values.
