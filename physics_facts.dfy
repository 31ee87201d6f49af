/**
 * What the player's physics guarantees: the input commands and their guards,
 * the air-dodge clock, the speed cap and friction, the collision snaps, the
 * wavedash transfer and how the grounded flag is derived.
 */
module PhysicsFacts {
  import opened Pixels
  import opened Level
  import opened Physics

  // ---------------------------------------------------------------------
  // Input commands

  /** moveRight only acts when right is not already held: then it adds
      exactly 3 to the jerk and sets the flag, and nothing else changes. */
  lemma MoveRightGuarded(s: PlayerState)
    ensures s.movingRight ==> MoveRight(s) == s
    ensures !s.movingRight ==> MoveRight(s) == s.(xJrk := s.xJrk + 3.0, movingRight := true)
    ensures MoveRight(MoveRight(s)) == MoveRight(s)
  {
  }

  /** moveLeft mirrors moveRight with -3. */
  lemma MoveLeftGuarded(s: PlayerState)
    ensures s.movingLeft ==> MoveLeft(s) == s
    ensures !s.movingLeft ==> MoveLeft(s) == s.(xJrk := s.xJrk - 3.0, movingLeft := true)
    ensures MoveLeft(MoveLeft(s)) == MoveLeft(s)
  {
  }

  /** The stop commands have no guard: each call shifts the jerk, so two
      calls in a row shift it twice. */
  lemma StopMovingUnguarded(s: PlayerState)
    ensures StopMovingRight(s) == s.(xJrk := s.xJrk - 3.0, movingRight := false)
    ensures StopMovingLeft(s) == s.(xJrk := s.xJrk + 3.0, movingLeft := false)
    ensures StopMovingRight(StopMovingRight(s)).xJrk == s.xJrk - 6.0
    ensures StopMovingLeft(StopMovingLeft(s)).xJrk == s.xJrk + 6.0
  {
  }

  /** Releasing a key undoes pressing it, when it was not held before. */
  lemma StopUndoesMove(s: PlayerState)
    ensures !s.movingRight ==> StopMovingRight(MoveRight(s)) == s
    ensures !s.movingLeft ==> StopMovingLeft(MoveLeft(s)) == s
  {
  }

  /** The jerk is 3 per held direction key, right positive. */
  predicate JerkBalanced(s: PlayerState)
  {
    s.xJrk == JerkStep * ((if s.movingRight then 1.0 else 0.0) - (if s.movingLeft then 1.0 else 0.0))
  }

  /** Presses, and releases of held keys, keep the jerk in step with the keys. */
  lemma MatchedInputKeepsJerkBalanced(s: PlayerState)
    requires JerkBalanced(s)
    ensures JerkBalanced(MoveRight(s)) && JerkBalanced(MoveLeft(s))
    ensures s.movingRight ==> JerkBalanced(StopMovingRight(s))
    ensures s.movingLeft ==> JerkBalanced(StopMovingLeft(s))
  {
  }

  /** A release without a matching press puts the jerk out of step with the keys. */
  lemma UnmatchedStopBreaksJerkBalance(s: PlayerState)
    requires JerkBalanced(s)
    ensures !s.movingRight ==> !JerkBalanced(StopMovingRight(s))
    ensures !s.movingLeft ==> !JerkBalanced(StopMovingLeft(s))
  {
  }

  /** A new player is at rest under gravity with no key held and a valid clock. */
  lemma SpawnAtRest(x: real, y: real)
    ensures var s := Spawn(x, y);
      && ClockValid(s) && GravityValid(s) && JerkBalanced(s) && Coasting(s)
      && s.x == x && s.y == y && s.length == 20
      && s.xSpd == 0.0 && s.ySpd == 0.0 && s.xAcc == 0.0 && s.yAcc == 10.0
      && !s.isAirDodging && !s.isGrounded
  {
  }

  // ---------------------------------------------------------------------
  // Jump and air dodge

  /** jump acts only when grounded and not dodging; then it sets the vertical
      speed to -speed and clears the horizontal acceleration. */
  lemma JumpGuarded(s: PlayerState, speed: real)
    ensures (s.isAirDodging || !s.isGrounded) ==> Jump(s, speed) == s
    ensures (!s.isAirDodging && s.isGrounded) ==> Jump(s, speed) == s.(ySpd := -speed, xAcc := 0.0)
  {
  }

  /** A jump takes effect on the next tick: the box rises by the jump speed. */
  lemma JumpRisesNextTick(s: PlayerState, speed: real, dt: int)
    requires ClockValid(s) && !s.isAirDodging && s.isGrounded
    ensures Integrate(Jump(s, speed), dt).y == s.y - speed
  {
  }

  /** airDodge does nothing on the ground. In the air it suspends gravity and
      launches the box downward at speed 6: to the right unless only left is
      held, then to the left. Position and controls are left alone. */
  lemma AirDodgeLaunch(s: PlayerState)
    ensures s.isGrounded ==> AirDodge(s) == s
    ensures !s.isGrounded ==>
      var d := AirDodge(s);
      && d.isAirDodging && d.xAcc == 0.0 && d.yAcc == 0.0
      && d.ySpd > 0.0
      && (d.xSpd > 0.0 <==> (s.movingRight || !s.movingLeft))
      && 35.999 < d.xSpd * d.xSpd + d.ySpd * d.ySpd < 36.001
      && d.x == s.x && d.y == s.y && SameControls(s, d)
      && d.airDodgeTimeCounter == s.airDodgeTimeCounter
  {
  }

  /** The launch velocity is 6 times (cos d, -sin d) for the chosen angle d. */
  lemma AirDodgeVelocity(s: PlayerState)
    requires !s.isGrounded
    ensures s.movingLeft && !s.movingRight ==>
      AirDodge(s).xSpd == 6.0 * Cos39 && AirDodge(s).ySpd == -6.0 * Sin39
    ensures !(s.movingLeft && !s.movingRight) ==>
      AirDodge(s).xSpd == 6.0 * Cos55 && AirDodge(s).ySpd == -6.0 * Sin55
  {
  }

  // ---------------------------------------------------------------------
  // The air-dodge clock

  /** A tick keeps the counter within one dodge. */
  lemma TickKeepsClockValid(s: PlayerState, rects: seq<Rect>, floors: seq<LightFloor>, dt: int)
    requires ClockValid(s)
    ensures ClockValid(Tick(s, rects, floors, dt))
  {
  }

  /** Gravity is off exactly while dodging, before and after a tick. */
  lemma TickKeepsGravityValid(s: PlayerState, rects: seq<Rect>, floors: seq<LightFloor>, dt: int)
    requires GravityValid(s)
    ensures GravityValid(Tick(s, rects, floors, dt))
  {
  }

  /** Every input command keeps gravity tied to the dodge flag; starting an
      airborne dodge and ending a dodge establish it from any state. */
  lemma CommandsKeepGravityValid(s: PlayerState, speed: real, dt: int)
    requires GravityValid(s)
    ensures GravityValid(MoveRight(s)) && GravityValid(MoveLeft(s))
    ensures GravityValid(StopMovingRight(s)) && GravityValid(StopMovingLeft(s))
    ensures GravityValid(Jump(s, speed)) && GravityValid(AirDodge(s))
    ensures GravityValid(Friction(s, dt))
  {
  }

  /** The end of a dodge restores gravity and an airborne dodge turns it off,
      whatever the state before. */
  lemma DodgeSwitchesGravity(s: PlayerState)
    ensures GravityValid(EndAirDodge(s)) && EndAirDodge(s).yAcc == Gravity
    ensures !s.isGrounded ==> GravityValid(AirDodge(s)) && AirDodge(s).yAcc == 0.0
  {
  }

  /** The counter only advances while dodging; its twelfth tick ends the
      dodge and resets it. Landing does not end a dodge. */
  lemma TickCountsDodge(s: PlayerState, rects: seq<Rect>, floors: seq<LightFloor>, dt: int)
    requires ClockValid(s)
    ensures var t := Tick(s, rects, floors, dt);
      && t.airDodgeTimeCounter ==
           (if !s.isAirDodging then s.airDodgeTimeCounter
            else if s.airDodgeTimeCounter + 1 == DodgeTicks then 0
            else s.airDodgeTimeCounter + 1)
      && t.isAirDodging == (s.isAirDodging && s.airDodgeTimeCounter + 1 < DodgeTicks)
  {
  }

  /** A dodge that has run for c ticks is still on n more ticks later, as
      long as c + n < 12, whatever the geometry. */
  lemma {:induction false} DodgeLasts(s: PlayerState, rects: seq<Rect>, floors: seq<LightFloor>, dt: int, n: nat)
    requires s.isAirDodging && 0 <= s.airDodgeTimeCounter && s.airDodgeTimeCounter + n < DodgeTicks
    ensures Run(s, rects, floors, dt, n).isAirDodging
    ensures Run(s, rects, floors, dt, n).airDodgeTimeCounter == s.airDodgeTimeCounter + n
  {
    if n > 0 {
      DodgeLasts(s, rects, floors, dt, n - 1);
      TickCountsDodge(Run(s, rects, floors, dt, n - 1), rects, floors, dt);
    }
  }

  /** A rectangle never sets a still, non-dodging player moving. */
  lemma HitRectKeepsStill(s: PlayerState, r: Rect)
    requires !s.isAirDodging && s.xSpd == 0.0 && s.ySpd == 0.0
    ensures HitRect(s, r).xSpd == 0.0 && HitRect(s, r).ySpd == 0.0
  {
    var a := AfterWall(s, r);
    assert a.xSpd == 0.0 && a.ySpd == 0.0 && !a.isAirDodging;
    assert SolidWavedash(a) == 0.0;
  }

  /** Collisions never set a still, non-dodging player moving. */
  lemma {:induction false} StillStaysStillRects(s: PlayerState, rects: seq<Rect>)
    requires !s.isAirDodging && s.xSpd == 0.0 && s.ySpd == 0.0
    ensures ResolveRects(s, rects).xSpd == 0.0 && ResolveRects(s, rects).ySpd == 0.0
    decreases |rects|
  {
    if |rects| > 0 {
      StillStaysStillRects(s, rects[..|rects| - 1]);
      HitRectKeepsStill(ResolveRects(s, rects[..|rects| - 1]), rects[|rects| - 1]);
    }
  }

  lemma {:induction false} StillStaysStillFloors(s: PlayerState, floors: seq<LightFloor>)
    requires !s.isAirDodging && s.xSpd == 0.0 && s.ySpd == 0.0
    ensures ResolveLightFloors(s, floors).xSpd == 0.0 && ResolveLightFloors(s, floors).ySpd == 0.0
    decreases |floors|
  {
    if |floors| > 0 {
      StillStaysStillFloors(s, floors[..|floors| - 1]);
    }
  }

  /** A fresh air dodge is on for 11 ticks and over after the 12th: gravity
      is back, both speeds are zero and the counter is reset. */
  lemma DodgeEndsAfterTwelveTicks(s: PlayerState, rects: seq<Rect>, floors: seq<LightFloor>, dt: int)
    requires s.isAirDodging && s.airDodgeTimeCounter == 0
    ensures Run(s, rects, floors, dt, 11).isAirDodging
    ensures var e := Run(s, rects, floors, dt, 12);
      && !e.isAirDodging && e.yAcc == Gravity && e.xSpd == 0.0 && e.ySpd == 0.0
      && e.airDodgeTimeCounter == 0
  {
    DodgeLasts(s, rects, floors, dt, 11);
    var last := Run(s, rects, floors, dt, 11);
    var ended := Integrate(last, dt).(isGrounded := false);
    assert !ended.isAirDodging && ended.xSpd == 0.0 && ended.ySpd == 0.0;
    StillStaysStillRects(ended, rects);
    StillStaysStillFloors(ResolveRects(ended, rects), floors);
  }

  // ---------------------------------------------------------------------
  // Speed cap and friction

  /** Past the cap in the jerk's direction the acceleration is zeroed, so
      (with friction off and the dodge not ending) the speed holds. */
  lemma SpeedCapHoldsSpeed(s: PlayerState, dt: int)
    requires SpeedCapped(s) && (!Coasting(s) || s.isAirDodging)
    requires ClockValid(s) && s.airDodgeTimeCounter + 1 < DodgeTicks
    ensures Integrate(s, dt).xAcc == 0.0 && Integrate(s, dt).xSpd == s.xSpd
    ensures Integrate(s, dt).x == s.x + s.xSpd
  {
  }

  /** Below the cap the jerk is added to the acceleration each tick. */
  lemma JerkAccumulates(s: PlayerState, dt: int)
    requires !SpeedCapped(s) && (!Coasting(s) || s.isAirDodging)
    requires ClockValid(s) && s.airDodgeTimeCounter + 1 < DodgeTicks
    ensures Integrate(s, dt).xAcc == s.xAcc + s.xJrk
    ensures Integrate(s, dt).xSpd == s.xSpd + (s.xAcc + s.xJrk) * dt as real / 1000.0
  {
  }

  /** Friction is off while exactly one direction is held, while dodging
      and at rest. */
  lemma FrictionOnlyWhenCoasting(s: PlayerState, dt: int)
    requires !Coasting(s) || s.isAirDodging || s.xSpd == 0.0
    ensures Friction(s, dt) == s
  {
  }

  /** Moving right while coasting, friction either lowers the acceleration by
      |11 - 0.2 xSpd^2| or, when that would carry the speed past zero this
      tick, brings the player to rest; it never reverses the motion. */
  lemma FrictionSlowsRightward(s: PlayerState, dt: int)
    requires Coasting(s) && !s.isAirDodging && s.xSpd > 0.0
    ensures var r := Friction(s, dt); var acc := s.xAcc - FrictionMagnitude(s.xSpd);
      && (s.xSpd + acc * dt as real / 1000.0 <= 0.0 ==> r == s.(xSpd := 0.0, xAcc := 0.0))
      && (s.xSpd + acc * dt as real / 1000.0 > 0.0 ==> r == s.(xAcc := acc))
      && (r.xAcc <= s.xAcc || r.xSpd == 0.0)
      && r.xSpd + r.xAcc * dt as real / 1000.0 >= 0.0
  {
  }

  /** The mirror image for leftward motion. */
  lemma FrictionSlowsLeftward(s: PlayerState, dt: int)
    requires Coasting(s) && !s.isAirDodging && s.xSpd < 0.0
    ensures var r := Friction(s, dt); var acc := s.xAcc + FrictionMagnitude(s.xSpd);
      && (s.xSpd + acc * dt as real / 1000.0 >= 0.0 ==> r == s.(xSpd := 0.0, xAcc := 0.0))
      && (s.xSpd + acc * dt as real / 1000.0 < 0.0 ==> r == s.(xAcc := acc))
      && (r.xAcc >= s.xAcc || r.xSpd == 0.0)
      && r.xSpd + r.xAcc * dt as real / 1000.0 <= 0.0
  {
  }

  /** While coasting, a whole tick never turns the horizontal motion around. */
  lemma CoastingNeverReverses(s: PlayerState, dt: int)
    requires Coasting(s) && !s.isAirDodging && ClockValid(s)
    ensures s.xSpd > 0.0 ==> Integrate(s, dt).xSpd >= 0.0
    ensures s.xSpd < 0.0 ==> Integrate(s, dt).xSpd <= 0.0
  {
    var jerked := if SpeedCapped(s) then s.(xAcc := 0.0) else s.(xAcc := s.xAcc + s.xJrk);
    if s.xSpd > 0.0 {
      FrictionSlowsRightward(jerked, dt);
    } else if s.xSpd < 0.0 {
      FrictionSlowsLeftward(jerked, dt);
    }
  }

  // ---------------------------------------------------------------------
  // Solid rectangles

  /** A wall entered from the left puts the box one unit left of it and
      stops its horizontal motion; its right pixel is then just left of the
      wall's left edge. */
  lemma WallHitFromLeft(s: PlayerState, r: Rect)
    requires CanHitWall(s, r) && NearWall(s, r) && s.PrevRightX() < r.x
    ensures AfterWall(s, r) == s.(x := (r.x - s.length - 1) as real, xSpd := 0.0, xAcc := 0.0)
    ensures HitRect(s, r).x == (r.x - s.length - 1) as real && HitRect(s, r).xAcc == 0.0
    ensures r.x >= 1 ==> HitRect(s, r).RightX() == r.x - 1
  {
    var h := HitRect(s, r);
    assert h.x + h.length as real == (r.x - 1) as real;
    PixelOfWhole(r.x - 1);
  }

  /** A wall entered from the right puts the box one unit right of it: its
      left pixel is the wall's right edge plus one. */
  lemma WallHitFromRight(s: PlayerState, r: Rect)
    requires CanHitWall(s, r) && NearWall(s, r)
    requires s.PrevRightX() >= r.x && s.PrevLeftX() > r.x + r.width
    ensures AfterWall(s, r) == s.(x := (r.x + r.width + 1) as real, xSpd := 0.0, xAcc := 0.0)
    ensures HitRect(s, r).x == (r.x + r.width + 1) as real && HitRect(s, r).xAcc == 0.0
    ensures r.x + r.width + 1 >= 0 ==> HitRect(s, r).LeftX() == r.x + r.width + 1
  {
    PixelOfWhole(r.x + r.width + 1);
  }

  /** Without a hit the wall test leaves the player alone. */
  lemma NoWallHit(s: PlayerState, r: Rect)
    requires !CanHitWall(s, r) || !NearWall(s, r) || (s.PrevRightX() >= r.x && s.PrevLeftX() <= r.x + r.width)
    ensures AfterWall(s, r) == s
  {
  }

  /** Landing on a rectangle from above puts the bottom one unit above its
      top, stops the fall and applies the wavedash. The rectangle then grounds
      the player when its top is at y >= 1; at y <= 0 the truncating pixel
      cast puts the bottom pixel on the top itself and it does not. */
  lemma LandOnRect(s: PlayerState, r: Rect)
    requires CanHitFloor(s, r) && NearFloor(AfterWall(s, r), r)
    requires AfterWall(s, r).PrevTopY() <= r.y + r.height && AfterWall(s, r).PrevBottomY() <= r.y
    ensures var h := HitRect(s, r); var a := AfterWall(s, r);
      && h.y == (r.y - s.length - 1) as real && h.ySpd == 0.0
      && h.xSpd == SolidWavedash(a) && h.x == a.x
    ensures r.y >= 1 ==> HitRect(s, r).BottomY() == r.y - 1 && HitRect(s, r).isGrounded
    ensures r.y <= 0 ==> HitRect(s, r).isGrounded == s.isGrounded
  {
    var h := HitRect(s, r);
    assert h.y + h.length as real == (r.y - 1) as real;
    PixelOfWhole(r.y - 1);
  }

  /** Hitting a rectangle's underside puts the top one unit below it and
      stops the rise. */
  lemma BumpUnderRect(s: PlayerState, r: Rect)
    requires CanHitFloor(s, r) && NearFloor(AfterWall(s, r), r)
    requires AfterWall(s, r).PrevTopY() > r.y + r.height
    ensures HitRect(s, r).y == (r.y + r.height + 1) as real && HitRect(s, r).ySpd == 0.0
    ensures HitRect(s, r).xSpd == AfterWall(s, r).xSpd
  {
  }

  /** The wavedash on a solid floor: while dodging, 0.9 of the fall speed is
      added in the direction of travel (to the left from rest), so a falling
      landing never slows the player; without a dodge nothing is added. */
  lemma SolidWavedashBoosts(a: PlayerState)
    ensures !a.isAirDodging ==> SolidWavedash(a) == a.xSpd
    ensures a.isAirDodging && a.xSpd > 0.0 ==> SolidWavedash(a) == a.xSpd + 0.9 * a.ySpd
    ensures a.isAirDodging && a.xSpd <= 0.0 ==> SolidWavedash(a) == a.xSpd - 0.9 * a.ySpd
    ensures a.isAirDodging && a.ySpd >= 0.0 ==>
      Abs(SolidWavedash(a)) >= Abs(a.xSpd) && (a.xSpd > 0.0 <==> SolidWavedash(a) > 0.0)
  {
  }

  // ---------------------------------------------------------------------
  // Light floors

  /** A light floor the box is not over is skipped, grounding included. */
  lemma LightFloorSkipped(s: PlayerState, f: LightFloor)
    requires !OverLightFloor(s, f)
    ensures HitLightFloor(s, f) == s
  {
  }

  /** A light floor stops nothing whose bottom was already at or below its
      top a tick ago: it can only change the grounded flag. */
  lemma LightFloorOneWay(s: PlayerState, f: LightFloor)
    requires s.PrevBottomY() >= f.top
    ensures HitLightFloor(s, f) == s.(isGrounded := HitLightFloor(s, f).isGrounded)
  {
  }

  /** Crossing a light floor's top from above lands on it like on a solid
      floor, with the light-floor wavedash. */
  lemma LandOnLightFloor(s: PlayerState, f: LightFloor)
    requires OverLightFloor(s, f) && CrossedLightFloor(s, f)
    ensures var h := HitLightFloor(s, f);
      && h.y == (f.top - s.length - 1) as real && h.ySpd == 0.0
      && h.xSpd == LightWavedash(s) && h.x == s.x
    ensures f.top >= 1 ==> HitLightFloor(s, f).BottomY() == f.top - 1 && HitLightFloor(s, f).isGrounded
  {
    var h := HitLightFloor(s, f);
    assert h.y + h.length as real == (f.top - 1) as real;
    PixelOfWhole(f.top - 1);
  }

  /** The light-floor wavedash differs from the solid one: moving right at
      most 0.9 and falling faster than 1, landing while dodging throws the
      player left, where a solid floor would push it further right; faster
      than 0.9 it adds the whole fall speed instead of 0.9 of it. */
  lemma LightWavedashAsWritten(a: PlayerState)
    requires a.isAirDodging
    ensures 0.0 < a.xSpd <= 0.9 && a.ySpd > 1.0 ==> LightWavedash(a) < 0.0 < a.xSpd < SolidWavedash(a)
    ensures a.xSpd > 0.9 ==> LightWavedash(a) == a.xSpd + a.ySpd
    ensures a.xSpd <= 0.0 ==> LightWavedash(a) == SolidWavedash(a)
  {
  }

  // ---------------------------------------------------------------------
  // The grounded flag

  /** Rectangle i supports the player at its turn of the loop. */
  predicate RectSupportsAt(s: PlayerState, rects: seq<Rect>, i: int)
    requires 0 <= i < |rects|
  {
    RectSupports(ResolveRects(s, rects[..i]), rects[i])
  }

  /** After the loop over the rectangles the player is grounded exactly when
      it was before or some rectangle supported it at its turn. */
  lemma {:induction false} RectsGroundedIff(s: PlayerState, rects: seq<Rect>)
    ensures ResolveRects(s, rects).isGrounded <==>
      (s.isGrounded || exists i :: 0 <= i < |rects| && RectSupportsAt(s, rects, i))
    decreases |rects|
  {
    if |rects| > 0 {
      var k := |rects| - 1;
      var init := rects[..k];
      var p := ResolveRects(s, init);
      RectsGroundedIff(s, init);
      assert p.isGrounded <==> (s.isGrounded || exists i :: 0 <= i < k && RectSupportsAt(s, init, i));
      assert ResolveRects(s, rects).isGrounded == (p.isGrounded || RectSupports(p, rects[k]));
      assert RectSupportsAt(s, rects, k) == RectSupports(p, rects[k]);
      forall i | 0 <= i < k
        ensures RectSupportsAt(s, rects, i) == RectSupportsAt(s, init, i)
      {
        assert rects[..i] == init[..i];
      }
    }
  }

  /** Light floor j supports the player at its turn of the loop. */
  predicate FloorSupportsAt(s: PlayerState, floors: seq<LightFloor>, j: int)
    requires 0 <= j < |floors|
  {
    LightFloorSupports(ResolveLightFloors(s, floors[..j]), floors[j])
  }

  /** The same for the loop over the light floors. */
  lemma {:induction false} FloorsGroundedIff(s: PlayerState, floors: seq<LightFloor>)
    ensures ResolveLightFloors(s, floors).isGrounded <==>
      (s.isGrounded || exists j :: 0 <= j < |floors| && FloorSupportsAt(s, floors, j))
    decreases |floors|
  {
    if |floors| > 0 {
      var k := |floors| - 1;
      var init := floors[..k];
      var p := ResolveLightFloors(s, init);
      FloorsGroundedIff(s, init);
      assert p.isGrounded <==> (s.isGrounded || exists j :: 0 <= j < k && FloorSupportsAt(s, init, j));
      assert ResolveLightFloors(s, floors).isGrounded == (p.isGrounded || LightFloorSupports(p, floors[k]));
      assert FloorSupportsAt(s, floors, k) == LightFloorSupports(p, floors[k]);
      forall j | 0 <= j < k
        ensures FloorSupportsAt(s, floors, j) == FloorSupportsAt(s, init, j)
      {
        assert floors[..j] == init[..j];
      }
    }
  }

  /** The grounded flag is recomputed every tick: it is true exactly when a
      rectangle or a light floor supported the player at its turn. */
  lemma TickGroundedIff(s: PlayerState, rects: seq<Rect>, floors: seq<LightFloor>, dt: int)
    ensures var start := Integrate(s, dt).(isGrounded := false);
      var landed := ResolveRects(start, rects);
      Tick(s, rects, floors, dt).isGrounded <==>
        || (exists i :: 0 <= i < |rects| && RectSupportsAt(start, rects, i))
        || (exists j :: 0 <= j < |floors| && FloorSupportsAt(landed, floors, j))
  {
    var start := Integrate(s, dt).(isGrounded := false);
    RectsGroundedIff(start, rects);
    FloorsGroundedIff(ResolveRects(start, rects), floors);
  }

  /** The "previous" edges that collisions test are the position minus the
      velocity after this tick's update, so they lag the position the box
      actually moved from by one acceleration step. */
  lemma PreviousPositionLags(s: PlayerState, dt: int)
    ensures var t := Advance(s, dt);
      && t.x - t.xSpd == s.x - s.xAcc * dt as real / 1000.0
      && t.y - t.ySpd == s.y - s.yAcc * dt as real / 1000.0
  {
  }

  /** With no geometry the player falls freely: never grounded, gravity
      added to the vertical speed, position advanced by the old speed. */
  lemma FreeFall(s: PlayerState, dt: int)
    requires ClockValid(s) && GravityValid(s) && !s.isAirDodging
    ensures var t := Tick(s, [], [], dt);
      && !t.isGrounded && t.yAcc == Gravity
      && t.y == s.y + s.ySpd && t.ySpd == s.ySpd + Gravity * dt as real / 1000.0
  {
  }

  /** A tick never changes the size, the jerk or the held keys. */
  lemma TickKeepsControls(s: PlayerState, rects: seq<Rect>, floors: seq<LightFloor>, dt: int)
    ensures SameControls(s, Tick(s, rects, floors, dt))
  {
  }
}
