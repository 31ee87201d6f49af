/**
 * The player's physics as functions on a snapshot of its fields. Each
 * function here is what one method of the player does to those fields, and
 * Tick is one call of `move`: integrate, then resolve collisions against the
 * solid rectangles and then against the light floors, in list order.
 *
 * Doubles are modelled by exact reals. Screen y grows downward.
 */
module Physics {
  import opened Pixels
  import opened Level

  /** Gravity restored by the end of an air dodge, in units per second squared. */
  const Gravity: real := 10.0
  /** Jerk added or removed by one direction key. */
  const JerkStep: real := 3.0
  /** Above this horizontal speed held jerk stops accelerating the player. */
  const SpeedCap: real := 6.0
  /** Launch speed of an air dodge. */
  const DodgeSpeed: real := 6.0
  /** Number of ticks an air dodge lasts. */
  const DodgeTicks: int := 12
  /** Side length of the player's square box. */
  const DefaultLength: int := 20

  /** Math.cos and Math.sin at the two dodge angles (radians), written as the
      decimal values of the doubles nearest to the true cosines and sines. */
  const Cos55: real := 0.70866977429126
  const Sin55: real := -0.7055403255703919
  const Cos39: real := -0.7259323042001402
  const Sin39: real := -0.6877661591839738

  function Abs(v: real): real
  {
    if v < 0.0 then -v else v
  }

  /** Every field of the player that its physics reads or writes. */
  datatype PlayerState = PlayerState(
    x: real, y: real, length: int,
    xSpd: real, ySpd: real, xAcc: real, yAcc: real, xJrk: real,
    movingRight: bool, movingLeft: bool,
    isAirDodging: bool, isGrounded: bool,
    airDodgeTimeCounter: int)
  {
    // Pixel edges of the box now, and one tick ago (position minus velocity).
    function LeftX(): int { Pixel(x) }
    function PrevLeftX(): int { Pixel(x - xSpd) }
    function RightX(): int { Pixel(x + length as real) }
    function PrevRightX(): int { Pixel(x + length as real - xSpd) }
    function TopY(): int { Pixel(y) }
    function PrevTopY(): int { Pixel(y - ySpd) }
    function BottomY(): int { Pixel(y + length as real) }
    function PrevBottomY(): int { Pixel(y + length as real - ySpd) }
    function CenterX(): real { x + length as real / 2.0 }
    function CenterY(): real { y + length as real / 2.0 }
  }

  /** A new player at (x, y): at rest, under gravity, no key held. */
  function Spawn(x: real, y: real): PlayerState
  {
    PlayerState(x, y, DefaultLength, 0.0, 0.0, 0.0, Gravity, 0.0,
                false, false, false, false, 0)
  }

  /** The air-dodge counter stays within one dodge's duration. */
  predicate ClockValid(s: PlayerState)
  {
    0 <= s.airDodgeTimeCounter < DodgeTicks
  }

  /** Gravity pulls exactly when no air dodge is running: a dodge switches
      it off and the end of the dodge restores it. */
  predicate GravityValid(s: PlayerState)
  {
    s.yAcc == if s.isAirDodging then 0.0 else Gravity
  }

  /** The fields no collision and no tick ever changes. */
  predicate SameControls(a: PlayerState, b: PlayerState)
  {
    && a.length == b.length && a.xJrk == b.xJrk
    && a.movingRight == b.movingRight && a.movingLeft == b.movingLeft
  }

  /** The fields collision resolution leaves alone (it moves the box, changes
      speeds, horizontal acceleration and the grounded flag only). */
  predicate SameOutsideCollision(a: PlayerState, b: PlayerState)
  {
    && SameControls(a, b)
    && a.isAirDodging == b.isAirDodging && a.yAcc == b.yAcc
    && a.airDodgeTimeCounter == b.airDodgeTimeCounter
  }

  // ---------------------------------------------------------------------
  // Input commands

  function MoveRight(s: PlayerState): PlayerState
  {
    if !s.movingRight then s.(xJrk := s.xJrk + JerkStep, movingRight := true) else s
  }

  function MoveLeft(s: PlayerState): PlayerState
  {
    if !s.movingLeft then s.(xJrk := s.xJrk - JerkStep, movingLeft := true) else s
  }

  function StopMovingRight(s: PlayerState): PlayerState
  {
    s.(xJrk := s.xJrk - JerkStep, movingRight := false)
  }

  function StopMovingLeft(s: PlayerState): PlayerState
  {
    s.(xJrk := s.xJrk + JerkStep, movingLeft := false)
  }

  function Jump(s: PlayerState, speed: real): PlayerState
  {
    if !s.isAirDodging && s.isGrounded then s.(ySpd := -speed, xAcc := 0.0) else s
  }

  /** The dodge angle in radians: 5.5 (down-right) unless only left is held,
      then 3.9 (down-left). */
  function DodgeDirection(s: PlayerState): real
  {
    if s.movingRight || !s.movingLeft then 5.5 else 3.9
  }

  function Cos(angle: real): real
    requires angle == 5.5 || angle == 3.9
  {
    if angle == 5.5 then Cos55 else Cos39
  }

  function Sin(angle: real): real
    requires angle == 5.5 || angle == 3.9
  {
    if angle == 5.5 then Sin55 else Sin39
  }

  function AirDodge(s: PlayerState): PlayerState
  {
    if s.isGrounded then s
    else
      var direction := DodgeDirection(s);
      s.(xAcc := 0.0, yAcc := 0.0,
         xSpd := DodgeSpeed * Cos(direction), ySpd := -DodgeSpeed * Sin(direction),
         isAirDodging := true)
  }

  function EndAirDodge(s: PlayerState): PlayerState
  {
    s.(yAcc := Gravity, xSpd := 0.0, ySpd := 0.0, isAirDodging := false)
  }

  // ---------------------------------------------------------------------
  // Integration

  /** |11 - 0.2 v^2|: the deceleration friction applies at speed v. */
  function FrictionMagnitude(v: real): (f: real)
    ensures f >= 0.0
  {
    Abs(-0.2 * (v * v) + 11.0)
  }

  /** Neither or both direction keys held. */
  predicate Coasting(s: PlayerState)
  {
    (!s.movingLeft && !s.movingRight) || (s.movingLeft && s.movingRight)
  }

  function Friction(s: PlayerState, dt: int): (r: PlayerState)
    ensures r == s.(xSpd := r.xSpd, xAcc := r.xAcc)
  {
    if !Coasting(s) || s.isAirDodging then s
    else if s.xSpd > 0.0 then
      var acc := s.xAcc - FrictionMagnitude(s.xSpd);
      if s.xSpd + acc * dt as real / 1000.0 <= 0.0 then s.(xSpd := 0.0, xAcc := 0.0)
      else s.(xAcc := acc)
    else if s.xSpd < 0.0 then
      var acc := s.xAcc + FrictionMagnitude(s.xSpd);
      if s.xSpd + acc * dt as real / 1000.0 >= 0.0 then s.(xSpd := 0.0, xAcc := 0.0)
      else s.(xAcc := acc)
    else s
  }

  /** Held jerk is ignored once the speed is past the cap in its direction. */
  predicate SpeedCapped(s: PlayerState)
  {
    (s.xSpd > SpeedCap && s.xJrk > 0.0) || (s.xSpd < -SpeedCap && s.xJrk < 0.0)
  }

  /** Counts a tick of an air dodge and ends the dodge on its twelfth tick. */
  function DodgeClock(s: PlayerState): (r: PlayerState)
    ensures SameControls(s, r) && r.x == s.x && r.y == s.y
  {
    var count := if s.isAirDodging then s.airDodgeTimeCounter + 1 else s.airDodgeTimeCounter;
    if count >= DodgeTicks then EndAirDodge(s).(airDodgeTimeCounter := 0)
    else s.(airDodgeTimeCounter := count)
  }

  /** Adds the held jerk to the acceleration, or zeroes the acceleration
      once the speed is past the cap in the jerk's direction. */
  function Accelerate(s: PlayerState): (r: PlayerState)
    ensures r == s.(xAcc := r.xAcc)
  {
    if SpeedCapped(s) then s.(xAcc := 0.0) else s.(xAcc := s.xAcc + s.xJrk)
  }

  /** Moves the box by the old velocity, then updates the velocity by the
      acceleration over dt milliseconds. */
  function Advance(s: PlayerState, dt: int): (r: PlayerState)
    ensures r == s.(x := r.x, y := r.y, xSpd := r.xSpd, ySpd := r.ySpd)
  {
    s.(x := s.x + s.xSpd, y := s.y + s.ySpd,
       xSpd := s.xSpd + s.xAcc * dt as real / 1000.0,
       ySpd := s.ySpd + s.yAcc * dt as real / 1000.0)
  }

  /** The part of `move` before collisions: jerk, friction, position from the
      old velocity, velocity from the new acceleration, dodge clock. */
  function Integrate(s: PlayerState, dt: int): (r: PlayerState)
    ensures SameControls(s, r)
  {
    DodgeClock(Advance(Friction(Accelerate(s), dt), dt))
  }

  // ---------------------------------------------------------------------
  // Solid rectangles

  /** The box's vertical extent meets the rectangle's. */
  predicate CanHitWall(s: PlayerState, r: Rect)
  {
    !(s.TopY() > r.y + r.height || s.BottomY() < r.y)
  }

  /** The box's horizontal extent meets the rectangle's. */
  predicate CanHitFloor(s: PlayerState, r: Rect)
  {
    !(s.RightX() < r.x || s.LeftX() > r.x + r.width)
  }

  predicate NearWall(s: PlayerState, r: Rect)
  {
    Abs(r.x as real + r.width as real / 2.0 - s.CenterX()) < (s.length + r.width) as real / 2.0 + 1.0
  }

  predicate NearFloor(s: PlayerState, r: Rect)
  {
    Abs(r.y as real + r.height as real / 2.0 - s.CenterY()) < (s.length + r.height) as real / 2.0 + 1.0
  }

  /** The horizontal speed after landing on a solid floor: while dodging,
      0.9 of the fall speed goes into the direction of travel (left at rest). */
  function SolidWavedash(s: PlayerState): real
  {
    if s.isAirDodging then s.xSpd + (if s.xSpd > 0.0 then 0.9 * s.ySpd else -0.9 * s.ySpd)
    else s.xSpd
  }

  /** Pushes the box out of a wall it entered from the left or the right. */
  function WallStep(s: PlayerState, r: Rect): (w: PlayerState)
    ensures w == s || w == s.(x := w.x, xSpd := 0.0, xAcc := 0.0)
  {
    if s.PrevRightX() < r.x then s.(x := (r.x - s.length - 1) as real, xSpd := 0.0, xAcc := 0.0)
    else if s.PrevLeftX() > r.x + r.width then s.(x := (r.x + r.width + 1) as real, xSpd := 0.0, xAcc := 0.0)
    else s
  }

  /** Pushes the box out of a rectangle it entered from below or from above. */
  function FloorStep(s: PlayerState, r: Rect): (f: PlayerState)
    ensures f == s || f == s.(y := f.y, ySpd := 0.0) || f == s.(y := f.y, xSpd := SolidWavedash(s), ySpd := 0.0)
  {
    if s.PrevTopY() > r.y + r.height then s.(y := (r.y + r.height + 1) as real, ySpd := 0.0)
    else if s.PrevBottomY() <= r.y then
      s.(y := (r.y - s.length - 1) as real, xSpd := SolidWavedash(s), ySpd := 0.0)
    else s
  }

  /** The state after the wall test for one rectangle. */
  function AfterWall(s: PlayerState, r: Rect): (a: PlayerState)
    ensures SameOutsideCollision(s, a) && a.isGrounded == s.isGrounded
  {
    if CanHitWall(s, r) && NearWall(s, r) then WallStep(s, r) else s
  }

  /** The wall and floor corrections for one rectangle; the horizontal
      overlap is the one tested before the wall correction. */
  function RectSnap(s: PlayerState, r: Rect): (c: PlayerState)
    ensures SameOutsideCollision(s, c) && c.isGrounded == s.isGrounded
  {
    var afterWall := AfterWall(s, r);
    if CanHitFloor(s, r) && NearFloor(afterWall, r) then FloorStep(afterWall, r) else afterWall
  }

  /** The rectangle grounds the player: overlap as tested before the
      corrections, bottom pixel one above its top after them. */
  predicate RectSupports(s: PlayerState, r: Rect)
  {
    CanHitFloor(s, r) && RectSnap(s, r).BottomY() + 1 == r.y
  }

  /** One iteration of the loop over the solid rectangles. */
  function HitRect(s: PlayerState, r: Rect): (h: PlayerState)
    ensures SameOutsideCollision(s, h)
    ensures h.isGrounded == (s.isGrounded || RectSupports(s, r))
  {
    RectSnap(s, r).(isGrounded := s.isGrounded || RectSupports(s, r))
  }

  /** The loop over the solid rectangles, in list order. */
  function ResolveRects(s: PlayerState, rects: seq<Rect>): (r: PlayerState)
    ensures SameOutsideCollision(s, r)
    ensures s.isGrounded ==> r.isGrounded
    decreases |rects|
  {
    if |rects| == 0 then s
    else HitRect(ResolveRects(s, rects[..|rects| - 1]), rects[|rects| - 1])
  }

  // ---------------------------------------------------------------------
  // Light floors

  predicate OverLightFloor(s: PlayerState, f: LightFloor)
  {
    !(s.RightX() < f.left || s.LeftX() > f.right)
  }

  /** The bottom edge crossed the floor's top during this tick. */
  predicate CrossedLightFloor(s: PlayerState, f: LightFloor)
  {
    s.BottomY() >= f.top && s.PrevBottomY() < f.top
  }

  /** The horizontal speed after landing on a light floor, as the game
      computes it: the whole fall speed when moving right faster than 0.9,
      otherwise 0.9 of it to the left. */
  function LightWavedash(s: PlayerState): real
  {
    if s.isAirDodging then s.xSpd + (if s.xSpd > 0.9 then s.ySpd else -0.9 * s.ySpd)
    else s.xSpd
  }

  function LightFloorSnap(s: PlayerState, f: LightFloor): (c: PlayerState)
    ensures c == s || c == s.(y := c.y, xSpd := LightWavedash(s), ySpd := 0.0)
  {
    if CrossedLightFloor(s, f) then
      s.(y := (f.top - s.length - 1) as real, xSpd := LightWavedash(s), ySpd := 0.0)
    else s
  }

  /** The light floor grounds the player: it is under the box and the bottom
      pixel is one above its top after the correction. */
  predicate LightFloorSupports(s: PlayerState, f: LightFloor)
  {
    OverLightFloor(s, f) && LightFloorSnap(s, f).BottomY() + 1 == f.top
  }

  /** One iteration of the loop over the light floors. */
  function HitLightFloor(s: PlayerState, f: LightFloor): (h: PlayerState)
    ensures SameOutsideCollision(s, h)
    ensures h.isGrounded == (s.isGrounded || LightFloorSupports(s, f))
  {
    if !OverLightFloor(s, f) then s
    else LightFloorSnap(s, f).(isGrounded := s.isGrounded || LightFloorSupports(s, f))
  }

  /** The loop over the light floors, in list order. */
  function ResolveLightFloors(s: PlayerState, floors: seq<LightFloor>): (r: PlayerState)
    ensures SameOutsideCollision(s, r)
    ensures s.isGrounded ==> r.isGrounded
    decreases |floors|
  {
    if |floors| == 0 then s
    else HitLightFloor(ResolveLightFloors(s, floors[..|floors| - 1]), floors[|floors| - 1])
  }

  // ---------------------------------------------------------------------
  // Whole ticks

  /** One call of `move`: the grounded flag is recomputed from scratch. */
  function Tick(s: PlayerState, rects: seq<Rect>, floors: seq<LightFloor>, dt: int): PlayerState
  {
    ResolveLightFloors(ResolveRects(Integrate(s, dt).(isGrounded := false), rects), floors)
  }

  /** n ticks with no input in between. */
  function Run(s: PlayerState, rects: seq<Rect>, floors: seq<LightFloor>, dt: int, n: nat): PlayerState
    decreases n
  {
    if n == 0 then s else Tick(Run(s, rects, floors, dt, n - 1), rects, floors, dt)
  }
}
