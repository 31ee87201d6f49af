/**
 * The player entity: fields updated in place by input commands and by one
 * call of Move per tick. Every method is proved to change the fields exactly
 * as the matching function of module Physics says.
 */
module Players {
  import opened Level
  import Physics
  import PhysicsFacts

  class Player {
    var x: real
    var y: real
    var length: int
    var xSpd: real
    var ySpd: real
    var xAcc: real
    var yAcc: real
    var xJrk: real
    var movingRight: bool
    var movingLeft: bool
    var isAirDodging: bool
    var isGrounded: bool
    var airDodgeTimeCounter: int

    /** The fields as one value. */
    function State(): Physics.PlayerState
      reads this
    {
      Physics.PlayerState(x, y, length, xSpd, ySpd, xAcc, yAcc, xJrk,
                          movingRight, movingLeft, isAirDodging, isGrounded,
                          airDodgeTimeCounter)
    }

    /** The dodge counter stays within one dodge, and gravity is off exactly
        while dodging. */
    ghost predicate Valid()
      reads this
    {
      Physics.ClockValid(State()) && Physics.GravityValid(State())
    }

    function LeftX(): int reads this { State().LeftX() }
    function PrevLeftX(): int reads this { State().PrevLeftX() }
    function RightX(): int reads this { State().RightX() }
    function PrevRightX(): int reads this { State().PrevRightX() }
    function TopY(): int reads this { State().TopY() }
    function PrevTopY(): int reads this { State().PrevTopY() }
    function BottomY(): int reads this { State().BottomY() }
    function PrevBottomY(): int reads this { State().PrevBottomY() }
    function CenterX(): real reads this { State().CenterX() }
    function CenterY(): real reads this { State().CenterY() }

    /** A player at the origin. */
    constructor ()
      ensures Valid() && State() == Physics.Spawn(0.0, 0.0)
    {
      x, y, length := 0.0, 0.0, Physics.DefaultLength;
      xSpd, ySpd, xAcc, yAcc, xJrk := 0.0, 0.0, 0.0, Physics.Gravity, 0.0;
      movingRight, movingLeft, isAirDodging, isGrounded := false, false, false, false;
      airDodgeTimeCounter := 0;
    }

    /** A player at a given location. */
    constructor At(x0: real, y0: real)
      ensures Valid() && State() == Physics.Spawn(x0, y0)
    {
      x, y, length := x0, y0, Physics.DefaultLength;
      xSpd, ySpd, xAcc, yAcc, xJrk := 0.0, 0.0, 0.0, Physics.Gravity, 0.0;
      movingRight, movingLeft, isAirDodging, isGrounded := false, false, false, false;
      airDodgeTimeCounter := 0;
    }

    /** Advances the player by one tick of dt milliseconds against the solid
        rectangles and then the light floors. */
    method Move(rects: seq<Rect>, lightFloors: seq<LightFloor>, dt: int)
      requires Valid()
      modifies this
      ensures Valid()
      ensures State() == Physics.Tick(old(State()), rects, lightFloors, dt)
    {
      Integrate(dt);
      isGrounded := false;
      ghost var integrated := State();

      for i := 0 to |rects|
        invariant State() == Physics.ResolveRects(integrated, rects[..i])
      {
        assert rects[..i + 1][..i] == rects[..i];
        CollideWithRect(rects[i]);
      }
      assert rects[..|rects|] == rects;

      ghost var landed := State();
      for i := 0 to |lightFloors|
        invariant State() == Physics.ResolveLightFloors(landed, lightFloors[..i])
      {
        assert lightFloors[..i + 1][..i] == lightFloors[..i];
        CollideWithLightFloor(lightFloors[i]);
      }
      assert lightFloors[..|lightFloors|] == lightFloors;
      PhysicsFacts.TickKeepsClockValid(old(State()), rects, lightFloors, dt);
      PhysicsFacts.TickKeepsGravityValid(old(State()), rects, lightFloors, dt);
    }

    /** The part of a tick before collisions: held jerk (unless past the
        speed cap), friction, position from the old velocity, velocity from
        the new acceleration, and the air-dodge clock. */
    method Integrate(dt: int)
      requires Valid()
      modifies this
      ensures Valid()
      ensures State() == Physics.Integrate(old(State()), dt)
    {
      ApplyJerk();
      ApplyFriction(dt);
      ghost var slowed := State();
      x := x + xSpd;
      y := y + ySpd;
      xSpd := xSpd + xAcc * dt as real / 1000.0;
      ySpd := ySpd + yAcc * dt as real / 1000.0;
      assert State() == Physics.Advance(slowed, dt);
      CountDodgeTick();
    }

    /** Adds the held jerk to the acceleration, or zeroes the acceleration
        once the speed is past the cap in the held direction. */
    method ApplyJerk()
      modifies this
      ensures State() == Physics.Accelerate(old(State()))
    {
      if (xSpd > 6.0 && xJrk > 0.0) || (xSpd < -6.0 && xJrk < 0.0) {
        xAcc := 0.0;
      } else {
        xAcc := xAcc + xJrk;
      }
    }

    /** Counts a tick of an air dodge and ends the dodge on its twelfth. */
    method CountDodgeTick()
      requires Valid()
      modifies this
      ensures Valid()
      ensures State() == Physics.DodgeClock(old(State()))
    {
      if isAirDodging {
        airDodgeTimeCounter := airDodgeTimeCounter + 1;
      }
      if airDodgeTimeCounter >= 12 {
        EndAirDodge();
        airDodgeTimeCounter := 0;
      }
    }

    /** One turn of Move's loop over the solid rectangles: push the box out
        of a wall, then out of a floor or ceiling, then test for ground. The
        horizontal overlap is taken before the wall correction. */
    method CollideWithRect(rect: Rect)
      modifies this
      ensures State() == Physics.HitRect(old(State()), rect)
    {
      var canHitFloor := !(RightX() < rect.x || LeftX() > rect.x + rect.width);
      ResolveWall(rect);
      ResolveFloor(rect, canHitFloor);
      if canHitFloor && BottomY() + 1 == rect.y {
        isGrounded := true;
      }
    }

    /** The wall half of a rectangle turn. */
    method ResolveWall(rect: Rect)
      modifies this
      ensures State() == Physics.AfterWall(old(State()), rect)
    {
      var canHitWall := !(TopY() > rect.y + rect.height || BottomY() < rect.y);
      var centerX := rect.x as real + rect.width as real / 2.0;
      if canHitWall && Physics.Abs(centerX - CenterX()) < (length + rect.width) as real / 2.0 + 1.0 {
        if PrevRightX() < rect.x {
          x := (rect.x - length - 1) as real;
          xSpd := 0.0;
          xAcc := 0.0;
        } else if PrevLeftX() > rect.x + rect.width {
          x := (rect.x + rect.width + 1) as real;
          xSpd := 0.0;
          xAcc := 0.0;
        }
      }
    }

    /** The floor half of a rectangle turn, given the horizontal overlap
        found at the start of the turn. */
    method ResolveFloor(rect: Rect, canHitFloor: bool)
      modifies this
      ensures State() == if canHitFloor && Physics.NearFloor(old(State()), rect)
                         then Physics.FloorStep(old(State()), rect) else old(State())
    {
      var centerY := rect.y as real + rect.height as real / 2.0;
      if canHitFloor && Physics.Abs(centerY - CenterY()) < (length + rect.height) as real / 2.0 + 1.0 {
        if PrevTopY() > rect.y + rect.height {
          y := (rect.y + rect.height + 1) as real;
          ySpd := 0.0;
        } else if PrevBottomY() <= rect.y {
          y := (rect.y - length - 1) as real;
          if isAirDodging {
            xSpd := xSpd + (if xSpd > 0.0 then 0.9 * ySpd else -0.9 * ySpd);
          }
          ySpd := 0.0;
        }
      }
    }

    /** One turn of Move's loop over the light floors: skip a floor the box
        is not over, stop a fall through its top, then test for ground. */
    method CollideWithLightFloor(floor: LightFloor)
      modifies this
      ensures State() == Physics.HitLightFloor(old(State()), floor)
    {
      if RightX() < floor.left || LeftX() > floor.right {
        return;
      }

      if BottomY() >= floor.top && PrevBottomY() < floor.top {
        y := (floor.top - length - 1) as real;
        if isAirDodging {
          xSpd := xSpd + (if xSpd > 0.9 then ySpd else -0.9 * ySpd);
        }
        ySpd := 0.0;
      }

      if BottomY() + 1 == floor.top {
        isGrounded := true;
      }
    }

    /** Jumps with the given speed if standing on something and not dodging. */
    method Jump(speed: real)
      requires Valid()
      modifies this
      ensures Valid()
      ensures State() == Physics.Jump(old(State()), speed)
    {
      if !isAirDodging && isGrounded {
        ySpd := -speed;
        xAcc := 0.0;
      }
    }

    /** Starts an air dodge unless grounded. */
    method AirDodge()
      requires Valid()
      modifies this
      ensures Valid()
      ensures State() == Physics.AirDodge(old(State()))
    {
      if isGrounded {
        return;
      }
      var direction := 3.9;
      if movingRight || !movingLeft {
        direction := 5.5;
      }
      xAcc := 0.0;
      yAcc := 0.0;
      xSpd := 6.0 * Physics.Cos(direction);
      ySpd := -6.0 * Physics.Sin(direction);
      isAirDodging := true;
    }

    /** Ends an air dodge: gravity back, motion stopped. */
    method EndAirDodge()
      modifies this
      ensures Physics.GravityValid(State())
      ensures old(Physics.ClockValid(State())) ==> Valid()
      ensures State() == Physics.EndAirDodge(old(State()))
    {
      yAcc := 10.0;
      xSpd := 0.0;
      ySpd := 0.0;
      isAirDodging := false;
    }

    method MoveRight()
      requires Valid()
      modifies this
      ensures Valid()
      ensures State() == Physics.MoveRight(old(State()))
    {
      if !movingRight {
        xJrk := xJrk + 3.0;
        movingRight := true;
      }
    }

    method MoveLeft()
      requires Valid()
      modifies this
      ensures Valid()
      ensures State() == Physics.MoveLeft(old(State()))
    {
      if !movingLeft {
        xJrk := xJrk - 3.0;
        movingLeft := true;
      }
    }

    method StopMovingRight()
      requires Valid()
      modifies this
      ensures Valid()
      ensures State() == Physics.StopMovingRight(old(State()))
    {
      xJrk := xJrk - 3.0;
      movingRight := false;
    }

    method StopMovingLeft()
      requires Valid()
      modifies this
      ensures Valid()
      ensures State() == Physics.StopMovingLeft(old(State()))
    {
      xJrk := xJrk + 3.0;
      movingLeft := false;
    }

    /** Slows the player toward rest when no net direction is held. */
    method ApplyFriction(dt: int)
      requires Valid()
      modifies this
      ensures Valid()
      ensures State() == Physics.Friction(old(State()), dt)
    {
      var notMoving := (!movingLeft && !movingRight) || (movingLeft && movingRight);
      if !notMoving || isAirDodging {
        return;
      }

      if xSpd > 0.0 {
        xAcc := xAcc - Physics.Abs(-0.2 * (xSpd * xSpd) + 11.0);
        if xSpd + xAcc * dt as real / 1000.0 <= 0.0 {
          xSpd := 0.0;
          xAcc := 0.0;
        }
      } else if xSpd < 0.0 {
        xAcc := xAcc + Physics.Abs(-0.2 * (xSpd * xSpd) + 11.0);
        if xSpd + xAcc * dt as real / 1000.0 >= 0.0 {
          xSpd := 0.0;
          xAcc := 0.0;
        }
      }
    }
  }
}
