/**
 * The flight model of src/aircraft.h: the aircraft state vector, the
 * module's own globals (frame-time ring buffer, loop time, rotation rates,
 * sub-unit position accumulators) and the per-frame update steps.
 *
 * Floats and doubles are real numbers. The sine, cosine and arctangent of
 * the C library are not part of this model; they are handed in as the
 * functions of a `Trig` value.
 */
module Aircraft {
  import opened Common

  // operating modes
  const DEBUG: int := 0
  const FLIGHT: int := 1
  const WALK: int := 2

  const NUM_FRMS: int := 500
  const TANK_SIZE: int := 8
  const SEA_LVL_Y: int := -20
  const START_X: int := 0
  const START_Y: int := SEA_LVL_Y
  const START_Z: int := -7000
  const WALK_RATE: int := 100000
  const PI: real := 3.1415
  const GRAV_C: real := -16.0

  /** The math-library functions the flight model calls, in radians. */
  datatype Trig = Trig(sin: real -> real, cos: real -> real, atan: real -> real)

  /** Angles in degrees: pitch, yaw and roll of the aircraft or of the view. */
  datatype Attitude = Attitude(pitch: real, yaw: real, roll: real)

  /** The aircraft state vector (struct state_vect). */
  class StateVector {
    var opMode: int
    var aileronPos: int
    var elevatorPos: int
    var throttlePos: int
    var rudderPos: int
    var ignitionOn: bool
    var engineOn: bool
    var rpm: int
    var fuel: int
    var fuelConsump: int
    var xPos: int
    var yPos: int
    var zPos: int
    var pitch: real
    var yaw: real
    var roll: real
    var hSpeed: real
    var vSpeed: real
    var deltaZ: real
    var efAOF: real
    var climbRate: real
    var altitude: int
    var airborne: bool
    var stall: bool
    var brake: bool
    var viewState: int
    var soundChng: int

    /** Every field cleared, as memset leaves the record. */
    ghost predicate Cleared()
      reads this
    {
      ControlsCleared() && PositionCleared() && MotionCleared() && FlagsCleared()
    }

    ghost predicate ControlsCleared()
      reads this
    {
      opMode == 0 && aileronPos == 0 && elevatorPos == 0 && throttlePos == 0 &&
      rudderPos == 0 && !ignitionOn && !engineOn && rpm == 0 && fuel == 0 &&
      fuelConsump == 0
    }

    ghost predicate PositionCleared()
      reads this
    {
      xPos == 0 && yPos == 0 && zPos == 0 && pitch == 0.0 && yaw == 0.0 && roll == 0.0
    }

    ghost predicate MotionCleared()
      reads this
    {
      hSpeed == 0.0 && vSpeed == 0.0 && deltaZ == 0.0 && efAOF == 0.0 &&
      climbRate == 0.0 && altitude == 0
    }

    ghost predicate FlagsCleared()
      reads this
    {
      !airborne && !stall && !brake && viewState == 0 && soundChng == 0
    }

    /** The canonical start-up state: on the runway, brake set, tank full. */
    ghost predicate IsStartState()
      reads this
    {
      opMode == FLIGHT && aileronPos == 0 && elevatorPos == 0 && throttlePos == 0 &&
      rudderPos == 0 && !ignitionOn && !engineOn && rpm == 0 && fuel == TANK_SIZE &&
      fuelConsump == 8 &&
      xPos == START_X && yPos == START_Y && zPos == START_Z &&
      pitch == 0.0 && yaw == 0.0 && roll == 0.0 &&
      MotionCleared() &&
      !airborne && !stall && brake && viewState == 0 && soundChng == 0
    }

    function Angles(): Attitude
      reads this`pitch, this`yaw, this`roll
    {
      Attitude(pitch, yaw, roll)
    }

    function FlightOf(): Flight
      reads this`engineOn, this`rpm, this`hSpeed, this`vSpeed, this`climbRate, this`deltaZ,
            this`efAOF, this`stall, this`pitch
    {
      Flight(engineOn, rpm, hSpeed, vSpeed, climbRate, deltaZ, efAOF, stall, pitch)
    }

    function InputsOf(): Inputs
      reads this`opMode, this`ignitionOn, this`throttlePos, this`brake, this`airborne,
            this`aileronPos, this`elevatorPos, this`rudderPos
    {
      Inputs(opMode == WALK, ignitionOn, throttlePos, brake, airborne, aileronPos, elevatorPos, rudderPos)
    }

    /** A state vector with static storage duration starts out zeroed. */
    constructor ()
      ensures Cleared()
    {
      new;
      Clear();
    }

    /** The start-up values ResetACState stores over the cleared record. */
    method SetStartConditions()
      modifies this`opMode, this`xPos, this`yPos, this`zPos, this`yaw, this`pitch, this`roll,
               this`fuel, this`fuelConsump, this`airborne, this`brake
      ensures opMode == FLIGHT && xPos == START_X && yPos == START_Y && zPos == START_Z
      ensures yaw == 0.0 && pitch == 0.0 && roll == 0.0
      ensures fuel == TANK_SIZE && fuelConsump == 8 && !airborne && brake
    {
      opMode := FLIGHT;
      xPos := START_X;
      yPos := START_Y;
      zPos := START_Z;
      yaw := 0.0;
      pitch := 0.0;
      roll := 0.0;
      fuel := TANK_SIZE;
      fuelConsump := 8;
      airborne := false;
      brake := true;
    }

    /** memset of the whole record to zero, one group of fields at a time. */
    method Clear()
      modifies this
      ensures Cleared()
    {
      ClearControls();
      ClearPosition();
      ClearMotion();
      ClearFlags();
    }

    method ClearControls()
      modifies this`opMode, this`aileronPos, this`elevatorPos, this`throttlePos, this`rudderPos,
               this`ignitionOn, this`engineOn, this`rpm, this`fuel, this`fuelConsump
      ensures ControlsCleared()
    {
      opMode := 0;
      aileronPos := 0;
      elevatorPos := 0;
      throttlePos := 0;
      rudderPos := 0;
      ignitionOn := false;
      engineOn := false;
      rpm := 0;
      fuel := 0;
      fuelConsump := 0;
    }

    method ClearPosition()
      modifies this`xPos, this`yPos, this`zPos, this`pitch, this`yaw, this`roll
      ensures PositionCleared()
    {
      xPos := 0;
      yPos := 0;
      zPos := 0;
      pitch := 0.0;
      yaw := 0.0;
      roll := 0.0;
    }

    method ClearMotion()
      modifies this`hSpeed, this`vSpeed, this`deltaZ, this`efAOF, this`climbRate, this`altitude
      ensures MotionCleared()
    {
      hSpeed := 0.0;
      vSpeed := 0.0;
      deltaZ := 0.0;
      efAOF := 0.0;
      climbRate := 0.0;
      altitude := 0;
    }

    method ClearFlags()
      modifies this`airborne, this`stall, this`brake, this`viewState, this`soundChng
      ensures FlagsCleared()
    {
      airborne := false;
      stall := false;
      brake := false;
      viewState := 0;
      soundChng := 0;
    }
  }

  /** Degrees in -179..180 to radians; negative angles are first taken mod 360. */
  function Rads(degrees: real): real
  {
    (if degrees < 0.0 then degrees + 360.0 else degrees) * (PI / 180.0)
  }

  function Degs(radians: real): real
  {
    radians * (180.0 / PI)
  }

  /** Rads and Degs are inverse up to the 360-degree shift of negative angles. */
  lemma DegsRads(degrees: real)
    ensures Degs(Rads(degrees)) == if degrees < 0.0 then degrees + 360.0 else degrees
    ensures -180.0 < degrees <= 180.0 ==> 0.0 <= Rads(degrees) < 2.0 * PI
  {
    var d := if degrees < 0.0 then degrees + 360.0 else degrees;
    calc {
      Degs(Rads(degrees));
      (d * (PI / 180.0)) * (180.0 / PI);
      d * ((PI / 180.0) * (180.0 / PI));
      d;
    }
  }

  // ---------------------------------------------------------------------
  // Engine power (CalcPowerDyn)

  /** The rpm the engine settles towards at a throttle setting. */
  function TargetRpm(throttlePos: int): int
  {
    375 + throttlePos * 117
  }

  /** The rpm after one pass of CalcPowerDyn. */
  function PoweredRpm(ignitionOn: bool, rpm: int, throttlePos: int, loopTime: nat): (r: int)
    ensures r >= 0
    ensures !ignitionOn ==> r == Max(0, if rpm != 0 then rpm - loopTime / 2 else rpm)
  {
    var target := TargetRpm(throttlePos);
    var half := loopTime as real * 0.5;
    var stepped :=
      if ignitionOn then
        var raised := if rpm < target then Trunc(rpm as real + half) else rpm;
        if raised > target then Trunc(raised as real - half) else raised
      else if rpm != 0 then rpm - loopTime / 2
      else rpm;
    if stepped < 0 then 0 else stepped
  }

  lemma PowerAtTargetHolds(rpm: int, throttlePos: int, loopTime: nat)
    requires throttlePos >= 0 && rpm == TargetRpm(throttlePos)
    ensures PoweredRpm(true, rpm, throttlePos, loopTime) == rpm
  {
  }

  lemma PowerAboveTargetFalls(rpm: int, throttlePos: int, loopTime: nat)
    requires throttlePos >= 0 && rpm > TargetRpm(throttlePos) && loopTime >= 1
    ensures PoweredRpm(true, rpm, throttlePos, loopTime) < rpm
  {
    var half := loopTime as real * 0.5;
    assert half >= 0.5;
    var t := Trunc(rpm as real - half);
    if rpm as real - half >= 0.0 {
      assert t as real <= rpm as real - 0.5;
    }
  }

  /**
   * Below the target the rpm climbs by half the loop time, as long as that
   * step does not overshoot the target and the loop time is at least 2.
   */
  lemma PowerBelowTargetRises(rpm: int, throttlePos: int, loopTime: nat)
    requires rpm >= 0 && rpm < TargetRpm(throttlePos) && loopTime >= 2
    requires rpm as real + loopTime as real * 0.5 <= TargetRpm(throttlePos) as real
    ensures rpm < PoweredRpm(true, rpm, throttlePos, loopTime) <= TargetRpm(throttlePos)
  {
    var half := loopTime as real * 0.5;
    var raised := Trunc(rpm as real + half);
    assert raised as real <= rpm as real + half < raised as real + 1.0;
    assert raised > rpm;
  }

  /**
   * The second test of CalcPowerDyn is not an else: a step that overshoots
   * the target is taken back in the same pass, so an rpm just below the
   * target can end lower than it started.
   */
  lemma PowerBelowTargetCanFall()
    ensures TargetRpm(0) == 375
    ensures PoweredRpm(true, 370, 0, 41) == 369
    ensures PoweredRpm(true, 370, 0, 40) == 370
  {
    assert Trunc(370.0 + 20.5) == 390;
    assert Trunc(390.0 - 20.5) == 369;
    assert Trunc(370.0 + 20.0) == 390;
    assert Trunc(390.0 - 20.0) == 370;
  }

  // ---------------------------------------------------------------------
  // Inertial damping

  /** One damping step of an angular rate: lose a tenth, snap to 0 below .01. */
  function Damp(x: real): (r: real)
    ensures x == 0.0 ==> r == 0.0
    ensures x >= 0.0 ==> 0.0 <= r <= x
    ensures x <= 0.0 ==> x <= r <= 0.0
    ensures r == 0.0 || r >= 0.01 || r <= -0.01
  {
    if x != 0.0 then
      var y := x - x / 10.0;
      if (y > 0.0 && y < 0.01) || (y < 0.0 && y > -0.01) then 0.0 else y
    else x
  }

  function DampTimes(x: real, n: nat): real
    decreases n
  {
    if n == 0 then x else DampTimes(Damp(x), n - 1)
  }

  /** (10/9)^n */
  function Growth(n: nat): (g: real)
    ensures g >= 1.0
  {
    if n == 0 then 1.0 else Growth(n - 1) * (10.0 / 9.0)
  }

  /** A rate below .01 * (10/9)^n is damped to exactly 0 within n + 1 passes. */
  lemma {:induction false} DampSettles(x: real, n: nat)
    requires -0.01 * Growth(n) < x < 0.01 * Growth(n)
    ensures DampTimes(x, n + 1) == 0.0
    decreases n
  {
    var y := Damp(x);
    if x == 0.0 {
      DampZeroStays(n);
    } else if n == 0 {
      assert y == 0.0;
    } else {
      assert -0.01 * Growth(n - 1) < y < 0.01 * Growth(n - 1) by {
        if y != 0.0 {
          assert y == x - x / 10.0;
        }
      }
      DampSettles(y, n - 1);
    }
  }

  lemma {:induction false} DampZeroStays(n: nat)
    ensures DampTimes(0.0, n + 1) == 0.0
  {
    if n > 0 {
      DampZeroStays(n - 1);
    }
  }

  // ---------------------------------------------------------------------
  // Rates of change (CalcTurnRate, CalcROC)

  /** Yaw rate induced by a bank angle of at most 90 degrees either way. */
  function TurnRate(roll: real): (r: real)
    ensures (0.0 < roll <= 90.0 || -90.0 <= roll < 0.0) ==> r == roll * 0.0005
    ensures !(0.0 < roll <= 90.0 || -90.0 <= roll < 0.0) ==> r == 0.0
    ensures -0.045 <= r <= 0.045
  {
    if 0.0 < roll && roll <= 90.0 then roll * 0.0005
    else if roll < 0.0 && roll >= -90.0 then roll * 0.0005
    else 0.0
  }

  function RollRate(airborne: bool, aileronPos: int, hSpeed: real, dRoll: real, loopTime: nat): real
  {
    if airborne && aileronPos != 0 then
      var torque := hSpeed * aileronPos as real / 10000.0;
      if dRoll != torque * loopTime as real then dRoll + torque * 6.0 else dRoll
    else dRoll
  }

  function PitchRate(airborne: bool, elevatorPos: int, hSpeed: real, dPitch: real, loopTime: nat): real
  {
    if elevatorPos != 0 then
      var raw := hSpeed * elevatorPos as real / 10000.0;
      var torque := if !airborne && raw > 0.0 then 0.0 else raw;
      if dPitch != torque * loopTime as real then dPitch + torque * 1.5 else dPitch
    else dPitch
  }

  function YawRate(rudderPos: int, hSpeed: real, roll: real, dYaw: real, loopTime: nat): real
  {
    if hSpeed != 0.0 then
      var rudder := if rudderPos != 0 then -(hSpeed * rudderPos as real / 10000.0) else 0.0;
      var torque := rudder + TurnRate(roll);
      if dYaw != torque * loopTime as real then dYaw + torque * 1.5 else dYaw
    else dYaw
  }

  /** On the ground the ailerons have no effect and the elevator cannot raise the nose. */
  lemma GroundedRates(aileronPos: int, elevatorPos: int, hSpeed: real, dRoll: real, dPitch: real, loopTime: nat)
    ensures RollRate(false, aileronPos, hSpeed, dRoll, loopTime) == dRoll
    ensures PitchRate(false, elevatorPos, hSpeed, dPitch, loopTime) <= dPitch
  {
    if elevatorPos != 0 {
      var raw := hSpeed * elevatorPos as real / 10000.0;
      if raw <= 0.0 {
        var step := raw * 1.5;
        assert step <= 0.0;
      }
    }
  }

  /** Airborne, a rolling aileron input moves the roll rate by six times its torque. */
  lemma AirborneRollRate(aileronPos: int, hSpeed: real, dRoll: real, loopTime: nat)
    requires aileronPos != 0
    requires dRoll != hSpeed * aileronPos as real / 10000.0 * loopTime as real
    ensures RollRate(true, aileronPos, hSpeed, dRoll, loopTime)
         == dRoll + hSpeed * aileronPos as real / 10000.0 * 6.0
  {
  }

  // ---------------------------------------------------------------------
  // Attitude bookkeeping (ApplyRots, shared with the view remapping)

  /** One 360-degree wrap of an angle that left [-180, 180]. */
  function WrapAngle(a: real): (r: real)
    ensures r == a || r == a - 360.0 || r == a + 360.0
    ensures -540.0 <= a <= 540.0 ==> -180.0 <= r <= 180.0
    ensures -180.0 <= a <= 180.0 ==> r == a
  {
    if a > 180.0 then -180.0 + (a - 180.0)
    else if a < -180.0 then 180.0 + (a - -180.0)
    else a
  }

  /** Wrap roll and yaw; pitch is left for the vertical reflection. */
  function Wrapped(att: Attitude): Attitude
  {
    att.(yaw := WrapAngle(att.yaw), roll := WrapAngle(att.roll))
  }

  /** Half a turn toward zero: the heading or bank seen from the other side. */
  function Opposite(a: real): (r: real)
    ensures -180.0 <= a <= 180.0 ==> -180.0 <= r <= 180.0
    ensures r == a - 180.0 || r == a + 180.0
  {
    if a >= 0.0 then a - 180.0 else a + 180.0
  }

  /**
   * A pitch past the vertical is reflected back into [-90, 90]; the
   * aircraft is then flying the other way up, so roll and yaw turn 180.
   */
  function Reflected(att: Attitude): (r: Attitude)
    ensures -90.0 <= att.pitch <= 90.0 ==> r == att
    ensures 90.0 < att.pitch ==> r.pitch == 180.0 - att.pitch
    ensures att.pitch < -90.0 ==> r.pitch == -180.0 - att.pitch
    ensures -270.0 <= att.pitch <= 270.0 ==> -90.0 <= r.pitch <= 90.0
  {
    if att.pitch > 90.0 || att.pitch < -90.0 then
      Attitude(if att.pitch > 0.0 then 180.0 - att.pitch else -180.0 - att.pitch,
               Opposite(att.yaw), Opposite(att.roll))
    else att
  }

  /** Angles within half a degree of zero snap to exactly zero. */
  function DeadBand(a: real): (r: real)
    ensures r == 0.0 || r == a
    ensures r == 0.0 <==> -0.5 < a < 0.5
  {
    if a > -0.5 && a < 0.5 then 0.0 else a
  }

  function DeadBanded(att: Attitude): Attitude
  {
    Attitude(DeadBand(att.pitch), DeadBand(att.yaw), DeadBand(att.roll))
  }

  /** The rates applied: the pitch rate splits into pitch and yaw by the new roll. */
  function Turned(att: Attitude, dPitch: real, dYaw: real, dRoll: real, trig: Trig): Attitude
  {
    var roll := att.roll + dRoll;
    Attitude(att.pitch + dPitch * trig.cos(Rads(roll)),
             att.yaw + dYaw + -(dPitch * trig.sin(Rads(roll))),
             roll)
  }

  /** The attitude ApplyRots leaves behind. */
  function Rotated(att: Attitude, dPitch: real, dYaw: real, dRoll: real, trig: Trig): Attitude
  {
    DeadBanded(Reflected(Wrapped(Turned(att, dPitch, dYaw, dRoll, trig))))
  }

  predicate InRange(att: Attitude)
  {
    -90.0 <= att.pitch <= 90.0 && -180.0 <= att.yaw <= 180.0 && -180.0 <= att.roll <= 180.0
  }

  /**
   * With a bounded sine and cosine and rates under 90 degrees a pass, the
   * attitude stays in its normal ranges: pitch in [-90, 90], roll and yaw
   * in [-180, 180].
   */
  lemma RotatedInRange(att: Attitude, dPitch: real, dYaw: real, dRoll: real, trig: Trig)
    requires InRange(att)
    requires -90.0 <= dPitch <= 90.0 && -90.0 <= dYaw <= 90.0 && -90.0 <= dRoll <= 90.0
    requires -1.0 <= trig.sin(Rads(att.roll + dRoll)) <= 1.0
    requires -1.0 <= trig.cos(Rads(att.roll + dRoll)) <= 1.0
    ensures InRange(Rotated(att, dPitch, dYaw, dRoll, trig))
  {
    var roll := att.roll + dRoll;
    var s, c := trig.sin(Rads(roll)), trig.cos(Rads(roll));
    assert -90.0 <= dPitch * c <= 90.0 by { BoundedProduct(dPitch, c, 90.0); }
    assert -90.0 <= dPitch * s <= 90.0 by { BoundedProduct(dPitch, s, 90.0); }
    var t := Turned(att, dPitch, dYaw, dRoll, trig);
    assert t.pitch == att.pitch + dPitch * c;
    assert t.yaw == att.yaw + dYaw + -(dPitch * s);
    assert t.roll == roll;
  }

  lemma MulNonNegative(a: real, b: real)
    requires a >= 0.0 && b >= 0.0
    ensures a * b >= 0.0
  {
  }

  lemma BoundedProduct(x: real, y: real, b: real)
    requires -b <= x <= b && -1.0 <= y <= 1.0
    ensures -b <= x * y <= b
  {
    var ax := if x >= 0.0 then x else -x;
    var ay := if y >= 0.0 then y else -y;
    MulNonNegative(ax, 1.0 - ay);
    assert ax * (1.0 - ay) == ax - ax * ay;
    assert x * y == ax * ay || x * y == -(ax * ay);
    MulNonNegative(ax, ay);
  }

  // ---------------------------------------------------------------------
  // Position integration (RunFModel)

  datatype Vec3 = Vec3(x: real, y: real, z: real)

  /**
   * The distance flown this pass as a world displacement: the point
   * (0, 0, deltaZ) rotated in z by the roll, in x by the effective angle of
   * flight (radians) and in y by the yaw.
   */
  function Displacement(deltaZ: real, efAOF: real, roll: real, yaw: real, trig: Trig): Vec3
  {
    var p0 := Vec3(0.0, 0.0, deltaZ);
    var p1 := Vec3(p0.x * trig.cos(Rads(roll)) - p0.y * trig.sin(Rads(roll)),
                   p0.x * trig.sin(Rads(roll)) + p0.y * trig.cos(Rads(roll)),
                   p0.z);
    var p2 := Vec3(p1.x,
                   p1.y * trig.cos(efAOF) - p1.z * trig.sin(efAOF),
                   p1.y * trig.sin(efAOF) + p1.z * trig.cos(efAOF));
    Vec3(p2.z * trig.sin(Rads(yaw)) + p2.x * trig.cos(Rads(yaw)),
         p2.y,
         p2.z * trig.cos(Rads(yaw)) - p2.x * trig.sin(Rads(yaw)))
  }

  /**
   * The roll rotation acts on a point on the z axis and so has no effect:
   * the climb comes from the angle of flight alone and the horizontal part
   * is turned by the yaw.
   */
  lemma DisplacementIgnoresRoll(deltaZ: real, efAOF: real, roll: real, yaw: real, trig: Trig)
    ensures Displacement(deltaZ, efAOF, roll, yaw, trig)
         == Vec3(deltaZ * trig.cos(efAOF) * trig.sin(Rads(yaw)),
                 -(deltaZ * trig.sin(efAOF)),
                 deltaZ * trig.cos(efAOF) * trig.cos(Rads(yaw)))
  {
    var c := trig.cos(efAOF);
    var p2z := 0.0 * trig.sin(efAOF) + deltaZ * c;
    assert p2z == deltaZ * c;
  }

  /** An integer coordinate and the float accumulator of its sub-unit moves. */
  datatype Axis = Axis(pos: int, collect: real)

  /**
   * Add one frame's displacement to the accumulator; once it exceeds one
   * unit either way it is moved into the position (`sign` is -1 for x and y,
   * which the source subtracts, +1 for z) and cleared.
   */
  function Accumulate(a: Axis, delta: real, sign: int): (r: Axis)
    requires sign == 1 || sign == -1
    requires -1.0 <= a.collect <= 1.0
    ensures -1.0 <= r.collect <= 1.0
    ensures r.collect == 0.0 || (r.collect == a.collect + delta && r.pos == a.pos)
    ensures r == Axis(a.pos, a.collect + delta) <==> -1.0 <= a.collect + delta <= 1.0
  {
    var c := a.collect + delta;
    if c > 1.0 || c < -1.0 then Axis(Trunc(a.pos as real + sign as real * c), 0.0)
    else Axis(a.pos, c)
  }

  /**
   * Positions move by whole units only: once the accumulator passes one
   * unit either way it is cleared and the position moves at least one unit,
   * in the direction of the accumulated move times the axis's sign.
   */
  lemma AccumulateCommits(a: Axis, delta: real, sign: int)
    requires sign == 1 || sign == -1
    requires -1.0 <= a.collect <= 1.0
    requires a.collect + delta > 1.0 || a.collect + delta < -1.0
    ensures Accumulate(a, delta, sign).collect == 0.0
    ensures (a.collect + delta > 1.0) == (sign == 1) ==> Accumulate(a, delta, sign).pos > a.pos
    ensures (a.collect + delta > 1.0) != (sign == 1) ==> Accumulate(a, delta, sign).pos < a.pos
  {
  }

  /** Altitude above sea level of a world y coordinate (y grows downward). */
  function AltitudeOf(yPos: int): (alt: int)
    ensures alt == 0 <==> yPos == SEA_LVL_Y
    ensures alt + yPos == -20
  {
    -(yPos - SEA_LVL_Y)
  }

  /** The loop time in whole units of the tick count, never less than 1. */
  function LoopTimeOf(ticks: nat): (t: nat)
    ensures t >= 1
    ensures ticks >= 1000 ==> t == ticks / 1000
    ensures ticks < 1000 ==> t == 1
  {
    if ticks / 1000 == 0 then 1 else ticks / 1000
  }

  function Sum(s: seq<int>): int
  {
    if s == [] then 0 else Sum(s[..|s| - 1]) + s[|s| - 1]
  }

  lemma SumStep(s: seq<int>, i: int)
    requires 0 <= i < |s|
    ensures Sum(s[..i + 1]) == Sum(s[..i]) + s[i]
  {
    assert s[..i + 1][..i] == s[..i];
  }

  lemma {:induction false} SumNonNegative(s: seq<int>)
    requires forall i :: 0 <= i < |s| ==> s[i] >= 0
    ensures Sum(s) >= 0
  {
    if s != [] {
      SumNonNegative(s[..|s| - 1]);
    }
  }

  // ---------------------------------------------------------------------
  // Flight dynamics of one pass

  /**
   * The new horizontal speed: on the ground with the brake set it falls by
   * one per pass and settles at zero, otherwise the thrust of the rpm
   * (against the speed the rpm and pitch would ideally give) is added.
   */
  function HorizontalSpeed(brake: bool, airborne: bool, hSpeed: real, rpm: int, pitch: real, loopTime: nat): real
  {
    var iSpeed := rpm as real / 17.5 + pitch * 1.5;
    var hAccel := (rpm as real * (iSpeed - hSpeed)) / 10000.0 / 1000.0 * loopTime as real;
    if brake && !airborne then
      (if hSpeed > 0.0 then hSpeed - 1.0 else 0.0)
    else
      hSpeed + hAccel
  }

  /**
   * Braking on the ground: a forward speed loses one unit per pass (it can
   * overshoot below zero by less than one), a speed not above zero settles at zero.
   */
  lemma BrakeSlows(hSpeed: real, rpm: int, pitch: real, loopTime: nat)
    ensures var r := HorizontalSpeed(true, false, hSpeed, rpm, pitch, loopTime);
      -1.0 < r && (hSpeed > 0.0 ==> r < hSpeed) && (hSpeed <= 0.0 ==> r == 0.0)
  {
  }

  /** The ground speed after n passes with the brake set. */
  function BrakeTimes(hSpeed: real, rpm: int, pitch: real, loopTime: nat, n: nat): real
    decreases n
  {
    if n == 0 then hSpeed
    else BrakeTimes(HorizontalSpeed(true, false, hSpeed, rpm, pitch, loopTime), rpm, pitch, loopTime, n - 1)
  }

  lemma {:induction false} BrakeHolds(rpm: int, pitch: real, loopTime: nat, n: nat)
    ensures BrakeTimes(0.0, rpm, pitch, loopTime, n) == 0.0
    decreases n
  {
    if n > 0 {
      BrakeHolds(rpm, pitch, loopTime, n - 1);
    }
  }

  /** The brake stops the aircraft: a speed of at most n is zero after n + 1 passes and stays there. */
  lemma {:induction false} BrakeStops(hSpeed: real, rpm: int, pitch: real, loopTime: nat, n: nat)
    requires hSpeed <= n as real
    ensures BrakeTimes(hSpeed, rpm, pitch, loopTime, n + 1) == 0.0
    decreases n
  {
    if hSpeed <= 0.0 {
      BrakeHolds(rpm, pitch, loopTime, n);
    } else {
      BrakeStops(hSpeed - 1.0, rpm, pitch, loopTime, n - 1);
    }
  }

  /** Without the brake (or in the air) the speed approaches the ideal speed. */
  lemma ThrustTowardsIdeal(airborne: bool, hSpeed: real, rpm: nat, pitch: real, loopTime: nat)
    requires airborne || rpm > 0
    ensures var ideal := rpm as real / 17.5 + pitch * 1.5;
      var r := HorizontalSpeed(false, airborne, hSpeed, rpm, pitch, loopTime);
      (hSpeed < ideal ==> r >= hSpeed) && (hSpeed > ideal ==> r <= hSpeed)
  {
    var ideal := rpm as real / 17.5 + pitch * 1.5;
    var diff := ideal - hSpeed;
    MulNonNegative(rpm as real, if diff >= 0.0 then diff else -diff);
    MulNonNegative((rpm as real * (if diff >= 0.0 then diff else -diff)) / 10000.0 / 1000.0, loopTime as real);
    assert rpm as real * (if diff >= 0.0 then diff else -diff)
        == (if diff >= 0.0 then rpm as real * diff else -(rpm as real * diff));
  }

  /** Vertical velocity from lift: arctan of the speed forced to -1..1, scaled and modified by pitch. */
  function LiftVelocity(hSpeed: real, pitch: real, loopTime: nat, trig: Trig): real
  {
    var lSpeed := if hSpeed / 65.0 - 1.0 > 1.0 then 1.0 else hSpeed / 65.0 - 1.0;
    (Degs(trig.atan(lSpeed)) + 45.0) / 5.29 * (-(pitch * 0.157) + 1.0) / 1000.0 * loopTime as real
  }

  /** Gravity plus lift; on the ground the aircraft cannot sink. */
  function VerticalSpeed(airborne: bool, hSpeed: real, pitch: real, loopTime: nat, trig: Trig): (r: real)
    ensures !airborne ==> r >= 0.0
    ensures airborne ==> r == loopTime as real * (GRAV_C / 1000.0) + LiftVelocity(hSpeed, pitch, loopTime, trig)
  {
    var v := loopTime as real * (GRAV_C / 1000.0) + LiftVelocity(hSpeed, pitch, loopTime, trig);
    if !airborne && v < 0.0 then 0.0 else v
  }

  lemma SignOfProduct(x: real, t: real)
    requires t > 0.0
    ensures (x * t > 0.0 <==> x > 0.0) && (x * t < 0.0 <==> x < 0.0)
  {
    if x > 0.0 {
      MulNonNegative(x, t - 1.0 / 2.0 * t);
      assert x * t == x * (t - 1.0 / 2.0 * t) + x * (1.0 / 2.0 * t);
    }
    if x < 0.0 {
      MulNonNegative(-x, t);
    }
  }

  lemma SignOfQuotient(x: real, t: real)
    requires t > 0.0
    ensures (x / t > 0.0 <==> x > 0.0) && (x / t < 0.0 <==> x < 0.0)
  {
    assert (x / t) * t == x;
    SignOfProduct(x / t, t);
  }

  /** Feet per minute from feet per loop time. */
  function ClimbRate(vSpeed: real, loopTime: nat): (r: real)
    requires loopTime >= 1
    ensures (r > 0.0 <==> vSpeed > 0.0) && (r < 0.0 <==> vSpeed < 0.0)
  {
    var c := vSpeed / loopTime as real;
    SignOfQuotient(vSpeed, loopTime as real);
    c * 60000.0
  }

  /** Miles per hour turned into feet covered in one loop time. */
  function FeetTravelled(hSpeed: real, loopTime: nat): (r: real)
    requires loopTime >= 1
    ensures (r > 0.0 <==> hSpeed > 0.0) && (r == 0.0 <==> hSpeed == 0.0)
  {
    var f := hSpeed * 5280.0 / 3600000.0;
    SignOfProduct(f, loopTime as real);
    f * loopTime as real
  }

  /** The effective angle of flight in radians: the climb over the distance flown. */
  function FlightAngle(vSpeed: real, deltaZ: real, trig: Trig): (r: real)
    ensures deltaZ == 0.0 ==> r == -trig.atan(vSpeed)
  {
    if deltaZ != 0.0 then -trig.atan(vSpeed / deltaZ) else -trig.atan(vSpeed)
  }

  datatype StallState = StallState(stall: bool, pitch: real)

  /**
   * The stall logic: a stall starts when, below 40 mph, the nose is more
   * than 20 degrees under a descending flight path; while stalled the nose
   * rises by a degree per pass until it is above 30 degrees, which ends it.
   */
  function StallStep(stall: bool, pitch: real, aoa: real, hSpeed: real): (r: StallState)
    ensures r.pitch == pitch || (r.stall && r.pitch == pitch + 1.0 && pitch <= 30.0)
    ensures r.stall && !stall ==> hSpeed < 40.0 && aoa < 0.0 && pitch - aoa < -20.0
  {
    var s := if pitch < aoa && aoa < 0.0 && hSpeed < 40.0 && pitch - aoa < -20.0 then true else stall;
    if s then
      (if pitch > 30.0 then StallState(false, pitch) else StallState(true, pitch + 1.0))
    else
      StallState(false, pitch)
  }

  /** The stall logic over successive passes, each with its angle of attack and speed. */
  function StallRun(st: StallState, passes: seq<(real, real)>): StallState
    decreases |passes|
  {
    if passes == [] then st
    else StallRun(StallStep(st.stall, st.pitch, passes[0].0, passes[0].1), passes[1..])
  }

  /** Once the nose is above 30 degrees no stall can start. */
  lemma {:induction false} StallStaysClear(pitch: real, passes: seq<(real, real)>)
    requires pitch > 30.0
    ensures StallRun(StallState(false, pitch), passes) == StallState(false, pitch)
    decreases |passes|
  {
    if passes != [] {
      StallStaysClear(pitch, passes[1..]);
    }
  }

  /**
   * A stall always ends: whatever the angles of attack and speeds, it is
   * over after one pass more than the degrees the nose needs to pass 30.
   */
  lemma {:induction false} StallRecovers(pitch: real, passes: seq<(real, real)>)
    requires |passes| >= 1 && pitch + (|passes| - 1) as real > 30.0
    ensures !StallRun(StallState(true, pitch), passes).stall
    decreases |passes|
  {
    if pitch > 30.0 {
      StallStaysClear(pitch, passes[1..]);
    } else {
      StallRecovers(pitch + 1.0, passes[1..]);
    }
  }

  // ---------------------------------------------------------------------
  // One pass of the flight model, on values

  /** The part of the state vector the engine and flight dynamics update. */
  datatype Flight = Flight(engineOn: bool, rpm: int, hSpeed: real, vSpeed: real, climbRate: real,
                           deltaZ: real, efAOF: real, stall: bool, pitch: real)

  /** The controls and flags a pass reads but does not change. */
  datatype Inputs = Inputs(walk: bool, ignitionOn: bool, throttlePos: int, brake: bool, airborne: bool,
                           aileronPos: int, elevatorPos: int, rudderPos: int)

  /** The three rotation rates kept by the flight model between passes. */
  datatype Rates = Rates(dPitch: real, dYaw: real, dRoll: real)

  /** The walk distance of DoWalk: a throttle-set ground speed over the loop time. */
  function WalkDistance(throttlePos: int, loopTime: nat): real
  {
    (throttlePos * (WALK_RATE / 15)) as real / 60000.0 * loopTime as real
  }

  /**
   * The speed update of a pass: walking, or the engine and then the
   * flight dynamics, each using what the step before it left.
   */
  function SpeedsStep(f: Flight, c: Inputs, loopTime: nat, trig: Trig): (r: Flight)
    requires loopTime >= 1
  {
    if c.walk then
      f.(deltaZ := WalkDistance(c.throttlePos, loopTime), efAOF := Rads(f.pitch), hSpeed := 140.0)
    else
      var rpm := PoweredRpm(c.ignitionOn, f.rpm, c.throttlePos, loopTime);
      var h := HorizontalSpeed(c.brake, c.airborne, f.hSpeed, rpm, f.pitch, loopTime);
      var v := VerticalSpeed(c.airborne, h, f.pitch, loopTime, trig);
      var dz := FeetTravelled(h, loopTime);
      var ef := FlightAngle(v, dz, trig);
      var st := StallStep(f.stall, f.pitch, Degs(ef), h);
      Flight(c.ignitionOn, rpm, h, v, ClimbRate(v, loopTime), dz, ef, st.stall, st.pitch)
  }

  /** The rate update of a pass: each rate is damped, then its control's torque is added. */
  function RatesStep(d: Rates, c: Inputs, hSpeed: real, roll: real, loopTime: nat): (r: Rates)
  {
    Rates(PitchRate(c.airborne, c.elevatorPos, hSpeed, Damp(d.dPitch), loopTime),
          YawRate(c.rudderPos, hSpeed, roll, Damp(d.dYaw), loopTime),
          RollRate(c.airborne, c.aileronPos, hSpeed, Damp(d.dRoll), loopTime))
  }

  /**
   * What a pass promises about speeds: walking leaves the engine, the
   * climb and the stall alone and walks at 140; flying runs the engine
   * exactly when the ignition is on, climbs with the sign of the vertical
   * speed, never sinks on the ground, and starts a stall only below 40.
   */
  lemma SpeedsStepMeaning(f: Flight, c: Inputs, loopTime: nat, trig: Trig)
    requires loopTime >= 1
    ensures var r := SpeedsStep(f, c, loopTime, trig);
      (c.walk ==> r.engineOn == f.engineOn && r.rpm == f.rpm && r.vSpeed == f.vSpeed &&
                  r.stall == f.stall && r.pitch == f.pitch && r.hSpeed == 140.0) &&
      (!c.walk ==> r.engineOn == c.ignitionOn && r.rpm >= 0 &&
                   (r.climbRate > 0.0 <==> r.vSpeed > 0.0) &&
                   (!c.airborne ==> r.vSpeed >= 0.0) &&
                   (r.stall && !f.stall ==> r.hSpeed < 40.0) &&
                   (r.pitch == f.pitch || (r.pitch == f.pitch + 1.0 && f.pitch <= 30.0)))
  {
    if !c.walk {
      var r := SpeedsStep(f, c, loopTime, trig);
      var rpm := PoweredRpm(c.ignitionOn, f.rpm, c.throttlePos, loopTime);
      var h := HorizontalSpeed(c.brake, c.airborne, f.hSpeed, rpm, f.pitch, loopTime);
      var v := VerticalSpeed(c.airborne, h, f.pitch, loopTime, trig);
      assert r.vSpeed == v && r.climbRate == ClimbRate(v, loopTime);
    }
  }

  /**
   * What one pass reads and writes: the flight values, the inputs (of
   * which the pass sets only the airborne latch), the attitude, the rates,
   * the position of each axis with its accumulator, and the altitude.
   */
  datatype PassState = PassState(f: Flight, c: Inputs, a: Attitude, d: Rates, p: Axes, altitude: int)

  /** The position and accumulator of the three world axes. */
  datatype Axes = Axes(x: Axis, y: Axis, z: Axis)

  /** The accumulators are within one unit, as MoveAircraft keeps them. */
  predicate Settled(p: Axes)
  {
    -1.0 <= p.x.collect <= 1.0 && -1.0 <= p.y.collect <= 1.0 && -1.0 <= p.z.collect <= 1.0
  }

  /** The speed phase of a pass: walking, or the engine and then the flight dynamics. */
  function SpeedsPhase(s: PassState, loopTime: nat, trig: Trig): PassState
    requires loopTime >= 1
  {
    var g := SpeedsStep(s.f, s.c, loopTime, trig);
    s.(f := g, a := s.a.(pitch := g.pitch))
  }

  /**
   * The rotation phase: the rates are damped and driven by the controls
   * at the current speed and roll, and the attitude turns by them.
   */
  function RotationsPhase(s: PassState, loopTime: nat, trig: Trig): PassState
  {
    var d := RatesStep(s.d, s.c, s.f.hSpeed, s.a.roll, loopTime);
    var a := Rotated(s.a, d.dPitch, d.dYaw, d.dRoll, trig);
    s.(d := d, a := a, f := s.f.(pitch := a.pitch))
  }

  /**
   * The move phase: the distance flown, along the angle of flight and the
   * attitude, moves the position through the accumulators; the angle of
   * flight is kept in degrees; the altitude follows and latches airborne.
   */
  function MovePhase(s: PassState, trig: Trig): (r: PassState)
    requires Settled(s.p)
    ensures Settled(r.p) && r.c.airborne == (s.c.airborne || r.altitude != 0)
    ensures r.altitude == AltitudeOf(r.p.y.pos)
  {
    var m := Displacement(s.f.deltaZ, s.f.efAOF, s.a.roll, s.a.yaw, trig);
    var p := Axes(Accumulate(s.p.x, m.x, -1), Accumulate(s.p.y, m.y, -1), Accumulate(s.p.z, m.z, 1));
    var alt := AltitudeOf(p.y.pos);
    s.(f := s.f.(efAOF := Degs(s.f.efAOF)), p := p, altitude := alt,
       c := s.c.(airborne := s.c.airborne || alt != 0))
  }

  /** One pass of RunFModel after the loop time is known, in the source's order. */
  function PassStep(s: PassState, loopTime: nat, trig: Trig): (r: PassState)
    requires loopTime >= 1 && Settled(s.p)
    ensures Settled(r.p) && r.altitude == AltitudeOf(r.p.y.pos)
  {
    MovePhase(RotationsPhase(SpeedsPhase(s, loopTime, trig), loopTime, trig), trig)
  }

  /**
   * A pass keeps the attitude in range when the rates it reaches stay
   * within 90 degrees and sine and cosine are bounded by 1; the inputs
   * other than the airborne latch never change, and the altitude is the
   * one the new height gives.
   */
  lemma PassStepKeepsAttitude(s: PassState, loopTime: nat, trig: Trig)
    requires loopTime >= 1 && Settled(s.p) && InRange(s.a)
    requires var d := PassStep(s, loopTime, trig).d;
      -90.0 <= d.dPitch <= 90.0 && -90.0 <= d.dYaw <= 90.0 && -90.0 <= d.dRoll <= 90.0
    requires forall x :: -1.0 <= trig.sin(x) <= 1.0 && -1.0 <= trig.cos(x) <= 1.0
    requires s.f.pitch == s.a.pitch
    ensures var r := PassStep(s, loopTime, trig);
      InRange(r.a) && r.f.pitch == r.a.pitch && r.c == s.c.(airborne := r.c.airborne) &&
      r.altitude == AltitudeOf(r.p.y.pos)
  {
    var s1 := SpeedsPhase(s, loopTime, trig);
    SpeedsStepMeaning(s.f, s.c, loopTime, trig);
    assert InRange(s1.a);
    var d := RatesStep(s1.d, s1.c, s1.f.hSpeed, s1.a.roll, loopTime);
    RotatedInRange(s1.a, d.dPitch, d.dYaw, d.dRoll, trig);
  }

  // ---------------------------------------------------------------------
  // The module's globals and the update steps

  /** The file-scope state of the flight model. */
  class FlightModel {
    var loopTime: int
    var frmIndex: int
    var frmWrap: bool
    var dPitch: real
    var dYaw: real
    var dRoll: real
    const frameTimes: array<int>
    var collectX: real
    var collectY: real
    var collectZ: real

    ghost predicate Valid()
      reads this`frmIndex, this`loopTime, this`collectX, this`collectY, this`collectZ, frameTimes
    {
      frameTimes.Length == NUM_FRMS && 0 <= frmIndex < NUM_FRMS && loopTime >= 0 &&
      (forall i :: 0 <= i < NUM_FRMS ==> frameTimes[i] >= 0) && Collected()
    }

    /** The position accumulators stay within one unit either way. */
    ghost predicate Collected()
      reads this`collectX, this`collectY, this`collectZ
    {
      -1.0 <= collectX <= 1.0 && -1.0 <= collectY <= 1.0 && -1.0 <= collectZ <= 1.0
    }

    function RatesOf(): Rates
      reads this`dPitch, this`dYaw, this`dRoll
    {
      Rates(dPitch, dYaw, dRoll)
    }

    /** How many saved frame times ReportFrameRate averages. */
    function Frames(): (n: int)
      reads this`frmWrap, this`frmIndex
      requires 0 <= frmIndex < NUM_FRMS
      ensures 0 <= n <= NUM_FRMS
      ensures n == 0 <==> !frmWrap && frmIndex == 0
    {
      if frmWrap then NUM_FRMS else frmIndex
    }

    /** Static storage: everything zero, the frame buffer included. */
    constructor ()
      ensures Valid() && fresh(frameTimes)
      ensures loopTime == 0 && frmIndex == 0 && !frmWrap
      ensures dPitch == 0.0 && dYaw == 0.0 && dRoll == 0.0
      ensures collectX == 0.0 && collectY == 0.0 && collectZ == 0.0
      ensures forall i :: 0 <= i < NUM_FRMS ==> frameTimes[i] == 0
    {
      loopTime, frmIndex, frmWrap := 0, 0, false;
      dPitch, dYaw, dRoll := 0.0, 0.0, 0.0;
      collectX, collectY, collectZ := 0.0, 0.0, 0.0;
      frameTimes := new int[NUM_FRMS](_ => 0);
    }

    /** Average of the saved frame times; None when no frame was recorded. */
    method ReportFrameRate() returns (average: Option<int>)
      requires Valid()
      modifies this`loopTime
      ensures Valid()
      ensures Frames() == 0 ==> average == None && loopTime == 0
      ensures Frames() > 0 ==>
        loopTime == TruncDiv(Sum(frameTimes[..Frames()]), Frames()) && average == Some(loopTime)
    {
      var frames := if frmWrap then NUM_FRMS else frmIndex;
      if frames != 0 {
        ghost var saved := frameTimes[..frames];
        var total := 0;
        var i := 0;
        while i < frames
          invariant 0 <= i <= frames
          invariant total == Sum(saved[..i])
        {
          SumStep(saved, i);
          total := total + frameTimes[i];
          i := i + 1;
        }
        assert saved[..frames] == saved;
        SumNonNegative(saved);
        loopTime := TruncDiv(total, frames);
        assert frameTimes[..frames] == saved;
        average := Some(loopTime);
      } else {
        loopTime := 0;
        average := None;
      }
    }

    /** Save the loop time in the ring buffer; the index wraps at NUM_FRMS. */
    method AddFrameTime()
      requires Valid()
      modifies this`frmIndex, this`frmWrap, frameTimes
      ensures Valid()
      ensures frameTimes[..] == old(frameTimes[..])[old(frmIndex) := loopTime]
      ensures frmIndex == (old(frmIndex) + 1) % NUM_FRMS
      ensures frmWrap == (old(frmWrap) || old(frmIndex) == NUM_FRMS - 1)
    {
      frameTimes[frmIndex] := loopTime;
      frmIndex := frmIndex + 1;
      if frmIndex == NUM_FRMS {
        frmIndex := 0;
        frmWrap := true;
      }
    }

    method ResetACState(sv: StateVector)
      modifies sv, this`dPitch, this`dYaw, this`dRoll
      ensures sv.IsStartState()
      ensures dPitch == 0.0 && dYaw == 0.0 && dRoll == 0.0
    {
      sv.Clear();
      sv.SetStartConditions();
      ClearRates();
    }

    /** All three rotation rates to zero. */
    method ClearRates()
      modifies this`dPitch, this`dYaw, this`dRoll
      ensures dPitch == 0.0 && dYaw == 0.0 && dRoll == 0.0
    {
      dPitch := 0.0;
      dRoll := 0.0;
      dYaw := 0.0;
    }

    method LandAC(sv: StateVector)
      modifies sv`airborne, sv`pitch, sv`roll, sv`yPos, this`dPitch, this`dYaw, this`dRoll
      ensures !sv.airborne && sv.pitch == 0.0 && sv.roll == 0.0 && sv.yPos == SEA_LVL_Y
      ensures dPitch == 0.0 && dYaw == 0.0 && dRoll == 0.0
    {
      sv.airborne := false;
      sv.pitch := 0.0;
      sv.roll := 0.0;
      sv.yPos := SEA_LVL_Y;
      ClearRates();
    }

    method InitAircraft(sv: StateVector)
      requires Valid()
      modifies sv, this`loopTime, this`frmWrap, this`dPitch, this`dYaw, this`dRoll
      ensures Valid()
      ensures sv.IsStartState() && loopTime == 0 && !frmWrap
      ensures dPitch == 0.0 && dYaw == 0.0 && dRoll == 0.0
    {
      loopTime := 0;
      ResetACState(sv);
      frmWrap := false;
    }

    method CalcPowerDyn(sv: StateVector)
      requires loopTime >= 0
      modifies sv`engineOn, sv`rpm
      ensures sv.engineOn == sv.ignitionOn
      ensures sv.rpm == PoweredRpm(sv.ignitionOn, old(sv.rpm), sv.throttlePos, loopTime)
    {
      var target := 375 + sv.throttlePos * 117;
      if sv.ignitionOn {
        if !sv.engineOn {
          sv.engineOn := true;
        }
        if sv.rpm < target {
          sv.rpm := Trunc(sv.rpm as real + loopTime as real * 0.5);
        }
        if sv.rpm > target {
          sv.rpm := Trunc(sv.rpm as real - loopTime as real * 0.5);
        }
      } else {
        if sv.engineOn {
          sv.engineOn := false;
        }
        if sv.rpm != 0 {
          sv.rpm := sv.rpm - loopTime / 2;
        }
      }
      if sv.rpm < 0 {
        sv.rpm := 0;
      }
    }

    /**
     * Speed, lift, climb and the effective angle of flight for one pass.
     * The source only calls it with a loop time of at least 1.
     */
    method CalcFlightDyn(sv: StateVector, trig: Trig)
      requires loopTime >= 1
      modifies sv`hSpeed, sv`vSpeed, sv`climbRate, sv`deltaZ, sv`efAOF, sv`stall, sv`pitch
      ensures sv.hSpeed == HorizontalSpeed(sv.brake, sv.airborne, old(sv.hSpeed), sv.rpm, old(sv.pitch), loopTime)
      ensures sv.vSpeed == VerticalSpeed(sv.airborne, sv.hSpeed, old(sv.pitch), loopTime, trig)
      ensures sv.climbRate == ClimbRate(sv.vSpeed, loopTime)
      ensures sv.deltaZ == FeetTravelled(sv.hSpeed, loopTime)
      ensures sv.efAOF == FlightAngle(sv.vSpeed, sv.deltaZ, trig)
      ensures StallState(sv.stall, sv.pitch)
           == StallStep(old(sv.stall), old(sv.pitch), Degs(sv.efAOF), sv.hSpeed)
    {
      sv.hSpeed := HorizontalSpeed(sv.brake, sv.airborne, sv.hSpeed, sv.rpm, sv.pitch, loopTime);
      sv.vSpeed := VerticalSpeed(sv.airborne, sv.hSpeed, sv.pitch, loopTime, trig);
      sv.climbRate := ClimbRate(sv.vSpeed, loopTime);
      sv.deltaZ := FeetTravelled(sv.hSpeed, loopTime);
      sv.efAOF := FlightAngle(sv.vSpeed, sv.deltaZ, trig);
      var next := StallStep(sv.stall, sv.pitch, Degs(sv.efAOF), sv.hSpeed);
      sv.stall, sv.pitch := next.stall, next.pitch;
    }

    method InertialDamp()
      modifies this`dPitch, this`dYaw, this`dRoll
      ensures dPitch == Damp(old(dPitch)) && dYaw == Damp(old(dYaw)) && dRoll == Damp(old(dRoll))
    {
      if dPitch != 0.0 {
        dPitch := dPitch - dPitch / 10.0;
        if (dPitch > 0.0 && dPitch < 0.01) || (dPitch < 0.0 && dPitch > -0.01) {
          dPitch := 0.0;
        }
      }
      if dYaw != 0.0 {
        dYaw := dYaw - dYaw / 10.0;
        if (dYaw > 0.0 && dYaw < 0.01) || (dYaw < 0.0 && dYaw > -0.01) {
          dYaw := 0.0;
        }
      }
      if dRoll != 0.0 {
        dRoll := dRoll - dRoll / 10.0;
        if (dRoll > 0.0 && dRoll < 0.01) || (dRoll < 0.0 && dRoll > -0.01) {
          dRoll := 0.0;
        }
      }
    }

    method CalcROC(sv: StateVector)
      requires loopTime >= 0
      modifies this`dPitch, this`dYaw, this`dRoll
      ensures dRoll == RollRate(sv.airborne, sv.aileronPos, sv.hSpeed, old(dRoll), loopTime)
      ensures dPitch == PitchRate(sv.airborne, sv.elevatorPos, sv.hSpeed, old(dPitch), loopTime)
      ensures dYaw == YawRate(sv.rudderPos, sv.hSpeed, sv.roll, old(dYaw), loopTime)
    {
      dRoll := RollRate(sv.airborne, sv.aileronPos, sv.hSpeed, dRoll, loopTime);
      dPitch := PitchRate(sv.airborne, sv.elevatorPos, sv.hSpeed, dPitch, loopTime);
      dYaw := YawRate(sv.rudderPos, sv.hSpeed, sv.roll, dYaw, loopTime);
    }

    method ApplyRots(sv: StateVector, trig: Trig)
      modifies sv`pitch, sv`yaw, sv`roll
      ensures sv.Angles() == Rotated(old(sv.Angles()), dPitch, dYaw, dRoll, trig)
    {
      sv.roll := sv.roll + dRoll;
      sv.yaw := sv.yaw + dYaw;
      sv.pitch := sv.pitch + dPitch * trig.cos(Rads(sv.roll));
      sv.yaw := sv.yaw + -(dPitch * trig.sin(Rads(sv.roll)));
      ghost var turned := Turned(old(sv.Angles()), dPitch, dYaw, dRoll, trig);
      assert sv.Angles() == turned;

      // bounds checking on roll and yaw at 180 or -180
      sv.roll := WrapAngle(sv.roll);
      sv.yaw := WrapAngle(sv.yaw);
      assert sv.Angles() == Wrapped(turned);

      // the special case when the pitch passes the vertical
      if sv.pitch > 90.0 || sv.pitch < -90.0 {
        sv.roll := Opposite(sv.roll);
        sv.yaw := Opposite(sv.yaw);
        if sv.pitch > 0.0 {
          sv.pitch := 180.0 - sv.pitch;
        } else if sv.pitch < 0.0 {
          sv.pitch := -180.0 - sv.pitch;
        }
      }
      assert sv.Angles() == Reflected(Wrapped(turned));

      // dampen everything out to 0 if close enough
      sv.pitch := DeadBand(sv.pitch);
      sv.roll := DeadBand(sv.roll);
      sv.yaw := DeadBand(sv.yaw);
    }

    /** World-walk mode: the throttle sets a ground speed, pitch the walking slope. */
    method DoWalk(sv: StateVector)
      modifies sv`deltaZ, sv`efAOF, sv`hSpeed
      ensures sv.deltaZ == (sv.throttlePos * (WALK_RATE / 15)) as real / 60000.0 * loopTime as real
      ensures sv.efAOF == Rads(sv.pitch) && sv.hSpeed == 140.0
    {
      sv.deltaZ := (sv.throttlePos * (WALK_RATE / 15)) as real;
      sv.deltaZ := sv.deltaZ / 60000.0;
      sv.deltaZ := sv.deltaZ * loopTime as real;
      sv.efAOF := Rads(sv.pitch);
      sv.hSpeed := 140.0;
    }

    /**
     * One pass of the flight model. `ticks` is the platform tick count the
     * source reads at the start of the pass.
     */
    method RunFModel(sv: StateVector, ticks: nat, trig: Trig)
      requires Valid()
      modifies this`loopTime, this`frmIndex, this`frmWrap, frameTimes
      modifies this`dPitch, this`dYaw, this`dRoll, this`collectX, this`collectY, this`collectZ
      modifies sv`deltaZ, sv`efAOF, sv`hSpeed, sv`engineOn, sv`rpm, sv`vSpeed, sv`climbRate,
               sv`stall, sv`pitch, sv`yaw, sv`roll, sv`xPos, sv`yPos, sv`zPos, sv`altitude, sv`airborne
      ensures Valid()
      ensures loopTime == LoopTimeOf(ticks)
      ensures frameTimes[..] == old(frameTimes[..])[old(frmIndex) := loopTime]
      ensures frmIndex == (old(frmIndex) + 1) % NUM_FRMS
      ensures StateOf(sv) == PassStep(old(StateOf(sv)), loopTime, trig)
      ensures sv.altitude == AltitudeOf(sv.yPos)
    {
      hide PassStep;
      loopTime := LoopTimeOf(ticks);
      AddFrameTime();
      StepAircraft(sv, trig);
    }

    /** The aircraft's state as one pass sees it: sv with the rates and accumulators. */
    function StateOf(sv: StateVector): PassState
      reads sv`engineOn, sv`rpm, sv`hSpeed, sv`vSpeed, sv`climbRate, sv`deltaZ, sv`efAOF, sv`stall,
            sv`opMode, sv`ignitionOn, sv`throttlePos, sv`brake, sv`airborne, sv`aileronPos,
            sv`elevatorPos, sv`rudderPos, sv`pitch, sv`yaw, sv`roll, sv`xPos, sv`yPos, sv`zPos,
            sv`altitude
      reads this`dPitch, this`dYaw, this`dRoll, this`collectX, this`collectY, this`collectZ
    {
      PassState(sv.FlightOf(), sv.InputsOf(), sv.Angles(), RatesOf(),
                Axes(Axis(sv.xPos, collectX), Axis(sv.yPos, collectY), Axis(sv.zPos, collectZ)), sv.altitude)
    }

    /** The dynamics of one pass, after the loop time is known. */
    method StepAircraft(sv: StateVector, trig: Trig)
      requires Collected() && loopTime >= 1
      modifies this`dPitch, this`dYaw, this`dRoll, this`collectX, this`collectY, this`collectZ
      modifies sv`deltaZ, sv`efAOF, sv`hSpeed, sv`engineOn, sv`rpm, sv`vSpeed, sv`climbRate,
               sv`stall, sv`pitch, sv`yaw, sv`roll, sv`xPos, sv`yPos, sv`zPos, sv`altitude, sv`airborne
      ensures StateOf(sv) == PassStep(old(StateOf(sv)), loopTime, trig)
    {
      // The composition needs only the shape of each phase, not its arithmetic.
      hide SpeedsStep;
      hide RatesStep;
      hide Rotated;
      hide Displacement;
      hide Accumulate;
      ghost var s0 := StateOf(sv);
      UpdateSpeeds(sv, trig);
      assert StateOf(sv) == SpeedsPhase(s0, loopTime, trig);
      UpdateRotations(sv, trig);
      ghost var s2 := StateOf(sv);
      MoveAircraft(sv, trig);
      assert StateOf(sv) == MovePhase(s2, trig);
    }

    /** Walking, or the engine and then the flight dynamics. */
    method UpdateSpeeds(sv: StateVector, trig: Trig)
      requires loopTime >= 1
      modifies sv`deltaZ, sv`efAOF, sv`hSpeed, sv`engineOn, sv`rpm, sv`vSpeed, sv`climbRate,
               sv`stall, sv`pitch
      ensures sv.FlightOf() == SpeedsStep(old(sv.FlightOf()), sv.InputsOf(), loopTime, trig)
    {
      if sv.opMode == WALK {
        DoWalk(sv);
      } else {
        CalcPowerDyn(sv);
        CalcFlightDyn(sv, trig);
      }
    }

    /** The rotation rates are damped, driven by the controls, and applied. */
    method UpdateRotations(sv: StateVector, trig: Trig)
      requires loopTime >= 0
      modifies this`dPitch, this`dYaw, this`dRoll, sv`pitch, sv`yaw, sv`roll
      ensures StateOf(sv) == RotationsPhase(old(StateOf(sv)), loopTime, trig)
    {
      InertialDamp();
      CalcROC(sv);
      ApplyRots(sv, trig);
    }

    /**
     * The end of a pass: the distance flown is rotated into a world
     * displacement, committed to the integer position through the float
     * accumulators, and the altitude and the airborne latch follow.
     */
    method MoveAircraft(sv: StateVector, trig: Trig)
      requires Collected()
      modifies sv`xPos, sv`yPos, sv`zPos, sv`efAOF, sv`altitude, sv`airborne
      modifies this`collectX, this`collectY, this`collectZ
      ensures Collected()
      ensures var d := Displacement(old(sv.deltaZ), old(sv.efAOF), sv.roll, sv.yaw, trig);
        Axis(sv.xPos, collectX) == Accumulate(Axis(old(sv.xPos), old(collectX)), d.x, -1) &&
        Axis(sv.yPos, collectY) == Accumulate(Axis(old(sv.yPos), old(collectY)), d.y, -1) &&
        Axis(sv.zPos, collectZ) == Accumulate(Axis(old(sv.zPos), old(collectZ)), d.z, 1)
      ensures sv.efAOF == Degs(old(sv.efAOF))
      ensures sv.altitude == AltitudeOf(sv.yPos)
      ensures sv.airborne == (old(sv.airborne) || sv.altitude != 0)
    {
      var d := Displacement(sv.deltaZ, sv.efAOF, sv.roll, sv.yaw, trig);
      sv.efAOF := Degs(sv.efAOF);

      var x := Accumulate(Axis(sv.xPos, collectX), d.x, -1);
      sv.xPos, collectX := x.pos, x.collect;
      var y := Accumulate(Axis(sv.yPos, collectY), d.y, -1);
      sv.yPos, collectY := y.pos, y.collect;
      var z := Accumulate(Axis(sv.zPos, collectZ), d.z, 1);
      sv.zPos, collectZ := z.pos, z.collect;

      sv.altitude := -(sv.yPos - SEA_LVL_Y);

      if !sv.airborne && sv.altitude != 0 {
        sv.airborne := true;
      }
    }
  }
}
