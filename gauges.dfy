/**
 * The cockpit instruments of src/gauges.h: how each Set turns a reading
 * into an index into its table of needle end points, and the compass
 * window copied out of the circular heading strip.
 *
 * Drawing the needles (Line, GetImage, PutImage) is not part of this
 * model; an instrument's Set returns the table index it would draw with.
 */
module Gauges {
  import opened Common
  import opened Aircraft

  // sizes of the needle end-point tables
  const FUEL_POINTS: int := 9
  const ALT_T_POINTS: int := 20
  const ALT_H_POINTS: int := 40
  const MPH_POINTS: int := 32
  const RPM_POINTS: int := 17
  const SLIP_POINTS: int := 19

  // the compass window and strip
  const FRAM_WID: int := 25
  const FRAM_DEP: int := 5
  const STRIP_WID: int := 120
  const STRIP_DEP: int := 5
  const STRIP_SIZE: int := (STRIP_WID + 1) * (STRIP_DEP + 1)

  /** An unsigned int argument receiving a C int: the value modulo 2^32. */
  function ToUnsigned(x: int): (u: nat)
    ensures u < 0x1_0000_0000
    ensures 0 <= x < 0x1_0000_0000 ==> u == x
  {
    x % 0x1_0000_0000
  }

  // ---------------------------------------------------------------------
  // Airspeed

  /** KphDial::Set: the speed capped at 175 and bent onto the dial's 32 points. */
  function KphIndex(speed: nat): (i: nat)
    ensures i < MPH_POINTS
    ensures speed <= 20 ==> i == 0
    ensures speed >= 175 ==> i == MPH_POINTS - 1
  {
    var s := if speed > 175 then 175 else speed;
    if s <= 20 then 0
    else if s <= 30 then s / 10 - 1
    else s / 5 - 4
  }

  /** A faster aircraft never shows a lower speed. */
  lemma KphIndexMonotone(a: nat, b: nat)
    requires a <= b
    ensures KphIndex(a) <= KphIndex(b)
  {
    var sa := if a > 175 then 175 else a;
    var sb := if b > 175 then 175 else b;
    assert sa <= sb;
    if sa > 30 {
      assert sa / 5 <= sb / 5;
    } else if sa > 20 && sb > 30 {
      assert sa / 10 - 1 <= 2 && sb / 5 - 4 >= 2;
    }
  }

  // ---------------------------------------------------------------------
  // Altimeter

  /** The three hands of the altimeter: 500-foot, 50-foot and 2.5-foot steps. */
  datatype AltHands = AltHands(thousands: nat, hundreds: nat, feet: nat)

  /**
   * Altimeter::Set on an altitude passed to its unsigned parameter. The
   * thousands and hundreds hands both index altTPoints; the feet hand
   * indexes altHPoints through a float division by 2.5.
   */
  function AltimeterIndices(altitude: int): (r: AltHands)
    ensures r.thousands < ALT_T_POINTS && r.hundreds < ALT_T_POINTS && r.feet < ALT_H_POINTS
  {
    var feet := ToUnsigned(altitude) % 10000;
    var thousands := feet / 500;
    var feet := feet % 1000;
    var hundreds := feet / 50;
    var feet := feet % 100;
    var ones := Trunc(feet as real / 2.5);
    assert ones as real <= feet as real / 2.5 < 40.0;
    AltHands(thousands, hundreds, ones)
  }

  /** The float division by 2.5 is the integer quotient of twice the feet by 5. */
  lemma FeetHandIsIntegral(altitude: int)
    ensures AltimeterIndices(altitude).feet == 2 * (ToUnsigned(altitude) % 100) / 5
  {
    var u := ToUnsigned(altitude);
    LastTwoDigitsKept(u);
    TruncTwoFifths(u % 100);
  }

  /** Reducing modulo 10000 and then 1000 keeps the last two digits. */
  lemma LastTwoDigitsKept(u: nat)
    ensures u % 10000 % 1000 % 100 == u % 100
  {
    DropWholeHundreds(u % 10000, 10);
    DropWholeHundreds(u, 100);
  }

  /** Reducing modulo a whole number of hundreds keeps the last two digits. */
  lemma DropWholeHundreds(u: nat, k: nat)
    requires k == 10 || k == 100
    ensures u % (100 * k) % 100 == u % 100
  {
    var q, r := u / (100 * k), u % (100 * k);
    assert u == 100 * (k * q) + r by {
      assert u == (100 * k) * q + r;
    }
  }

  /** Truncating a non-negative whole number divided by 2.5 is (2 * f) / 5. */
  lemma TruncTwoFifths(f: nat)
    ensures Trunc(f as real / 2.5) == 2 * f / 5
  {
    var q := 2 * f / 5;
    var r := 2 * f % 5;
    assert 2 * f == 5 * q + r;
    assert f as real / 2.5 == q as real + r as real / 5.0;
  }

  /** Below 10000 feet the hands read the altitude directly. */
  lemma AltimeterReads(altitude: int)
    requires 0 <= altitude < 10000
    ensures AltimeterIndices(altitude).thousands == altitude / 500
    ensures AltimeterIndices(altitude).hundreds == altitude % 1000 / 50
  {
  }

  /** The altimeter turns over every 10000 feet. */
  lemma AltimeterPeriodic(altitude: int)
    requires 0 <= altitude && altitude + 10000 < 0x1_0000_0000
    ensures AltimeterIndices(altitude + 10000) == AltimeterIndices(altitude)
  {
    assert (altitude + 10000) % 10000 == altitude % 10000;
  }

  // ---------------------------------------------------------------------
  // Tachometer

  /** RpmGauge::Set as written: the rpm over 125, unchecked against the 17 points. */
  function RpmIndexAsWritten(rpms: nat): (i: nat)
    ensures i < RPM_POINTS <==> rpms < 2125
  {
    rpms / 125
  }

  /**
   * The engine model reaches 2130 rpm at full throttle (the target of
   * CalcPowerDyn for throttle 15), where the written index is 17: one past
   * the end of rpmPoints.
   */
  lemma RpmIndexOverruns()
    ensures PoweredRpm(true, 2129, 15, 2) == 2130
    ensures RpmIndexAsWritten(PoweredRpm(true, 2129, 15, 2)) == RPM_POINTS
  {
    assert Trunc(2129.0 + 2.0 * 0.5) == 2130;
  }

  /** The tachometer index kept on the dial: the last point for 2125 rpm and more. */
  function RpmIndex(rpms: nat): (i: nat)
    ensures i < RPM_POINTS
    ensures rpms < 2125 ==> i == RpmIndexAsWritten(rpms)
  {
    Min(rpms / 125, RPM_POINTS - 1)
  }

  /**
   * The engine never runs above its full-throttle target of 2130 rpm once
   * it is at or below it, so the written tachometer index is at most one
   * past the last point: 17, never more.
   */
  lemma RpmIndexOverrunsByOne(ignitionOn: bool, rpm: nat, throttlePos: int, loopTime: nat)
    requires 0 <= throttlePos <= 15 && rpm <= TargetRpm(15)
    ensures PoweredRpm(ignitionOn, rpm, throttlePos, loopTime) <= TargetRpm(15)
    ensures RpmIndexAsWritten(PoweredRpm(ignitionOn, rpm, throttlePos, loopTime)) <= RPM_POINTS
  {
  }

  // ---------------------------------------------------------------------
  // Slip indicator

  /** SlipGauge::Set: the ball's point, or None when the deflection is off the scale. */
  function SlipIndex(deflection: int): (i: Option<nat>)
    ensures i.Some? <==> -9 <= deflection <= 9
    ensures i.Some? ==> i.value < SLIP_POINTS && i.value - 9 == deflection
  {
    if deflection < -9 || deflection > 9 then None else Some(deflection + 9)
  }

  /** Opposite deflections put the ball at mirrored points. */
  lemma SlipMirrors(deflection: int)
    requires -9 <= deflection <= 9
    ensures SlipIndex(-deflection).value == SLIP_POINTS - 1 - SlipIndex(deflection).value
  {
  }

  // ---------------------------------------------------------------------
  // Fuel gauge

  /**
   * The point the fuel gauge picks: the number of whole eighths of a tank
   * in newGals, or None when its search finds no point (more fuel than the
   * tank holds, or a tank smaller than 8 gallons holding some fuel), where
   * the source draws to an unset point.
   */
  function FuelIndex(eighthTank: nat, newGals: nat): (i: Option<nat>)
    ensures i.Some? ==> i.value < FUEL_POINTS
    ensures eighthTank > 0 ==> (i.Some? <==> newGals <= 8 * eighthTank)
    ensures eighthTank > 0 && i.Some? ==>
      i.value * eighthTank <= newGals && (newGals < (i.value + 1) * eighthTank || i.value == 8)
  {
    if eighthTank == 0 then (if newGals == 0 then Some(0) else None)
    else if newGals <= 8 * eighthTank then Some(newGals / eighthTank)
    else None
  }

  /**
   * As written, a tank of 8 gallons (an eighth of 1) holding 9 gallons
   * gives no point: the search never meets an eighth at or past the fuel,
   * and the needle is drawn to an unset point.
   */
  lemma FuelIndexOverfull()
    ensures FuelIndex(8 / 8, 9) == None
  {
  }

  /**
   * The fuel gauge's point as its class comment promises: the point the
   * search finds, and Full (the last point) for more fuel than the tank
   * holds.
   */
  function FuelPoint(eighthTank: nat, newGals: nat): (i: nat)
    ensures i < FUEL_POINTS
    ensures FuelIndex(eighthTank, newGals).Some? ==> i == FuelIndex(eighthTank, newGals).value
    ensures newGals > 8 * eighthTank ==> i == FUEL_POINTS - 1
  {
    match FuelIndex(eighthTank, newGals)
    case Some(k) => k
    case None => FUEL_POINTS - 1
  }

  /** More fuel never shows less on the corrected gauge. */
  lemma FuelPointMonotone(eighthTank: nat, g1: nat, g2: nat)
    requires g1 <= g2
    ensures FuelPoint(eighthTank, g1) <= FuelPoint(eighthTank, g2)
  {
    if eighthTank > 0 && g2 <= 8 * eighthTank {
      DivMonotone(g1, g2, eighthTank);
    }
  }

  lemma DivMonotone(a: nat, b: nat, d: nat)
    requires a <= b && d > 0
    ensures a / d <= b / d
  {
    if a / d > b / d {
      assert (b / d + 1) * d <= (a / d) * d by { MulMonotone(b / d + 1, a / d, d); }
      MulSucc(b / d, d);
    }
  }

  class FuelGauge {
    const sizeOfTank: Byte

    constructor (tankSize: Byte)
      ensures sizeOfTank == tankSize
    {
      sizeOfTank := tankSize;
    }

    /** FuelGauge::Set: the search over the nine points of the gauge. */
    method Set(newGals: nat) returns (point: Option<nat>)
      ensures point == FuelIndex(sizeOfTank / 8, newGals)
    {
      var eighthTank := sizeOfTank / 8;
      point := None;
      var i := 0;
      while i < FUEL_POINTS
        invariant 0 <= i <= FUEL_POINTS
        invariant forall k :: 0 <= k < i ==> k * eighthTank < newGals
        decreases FUEL_POINTS - i
      {
        if i * eighthTank > newGals {
          point := Some(i - 1);
          break;
        } else if i * eighthTank == newGals {
          point := Some(i);
          break;
        }
        i := i + 1;
      }
      FuelSearchMeetsIndex(eighthTank, newGals, i, point);
    }
  }

  /** The outcome of the search loop is the spec's index. */
  lemma FuelSearchMeetsIndex(eighthTank: nat, newGals: nat, i: int, point: Option<nat>)
    requires 0 <= i <= FUEL_POINTS
    requires forall k :: 0 <= k < i ==> k * eighthTank < newGals
    requires i == FUEL_POINTS ==> point == None
    requires i < FUEL_POINTS ==>
      (i * eighthTank > newGals && point == Some(i - 1)) ||
      (i * eighthTank == newGals && point == Some(i))
    ensures point == FuelIndex(eighthTank, newGals)
  {
    if i == FUEL_POINTS {
      assert 8 * eighthTank < newGals;
    } else if i * eighthTank > newGals {
      assert i > 0;
      assert (i - 1) * eighthTank < newGals;
      DivBetween(newGals, eighthTank, i - 1);
    } else {
      if eighthTank > 0 {
        DivBetween(newGals, eighthTank, i);
      } else {
        assert i == 0 || 0 * eighthTank < newGals;
      }
    }
  }

  // ---------------------------------------------------------------------
  // Compass

  /** Compass::Set: headings 0..359 in steps of 3 become strip positions 1..120. */
  function CompassDir(lastDir: int, heading: nat): (d: int)
    ensures heading <= 359 && heading % 3 == 0 ==> 1 <= d <= 120
    ensures !(heading <= 359 && heading % 3 == 0) ==> d == lastDir
  {
    if heading <= 359 && heading % 3 == 0 then
      var h := if heading != 0 then heading / 3 else heading;
      var h := h + 60;
      if h > 120 then h - 120 else h
    else
      lastDir
  }

  /** North sits in the middle of the strip and each step of 3 degrees is one position. */
  lemma CompassDirSteps(heading: nat)
    requires heading + 3 <= 359 && heading % 3 == 0
    ensures CompassDir(0, heading) == 60 + heading / 3 - (if heading / 3 > 60 then 120 else 0)
    ensures CompassDir(0, heading + 3) % 120 == (CompassDir(0, heading) + 1) % 120
  {
  }

  /** The window of the strip shown for a centre position: one piece, or two when it wraps. */
  datatype Window = Window(start: int, lineLen: int, blit2Len: int)

  /** The window computed at the start of Compass::BlitBox. */
  function CompassWindow(centerX: int): (w: Window)
    requires 0 <= centerX <= STRIP_WID
    ensures 0 <= w.start < STRIP_WID
    ensures 0 < w.lineLen <= FRAM_WID && 0 <= w.blit2Len < FRAM_WID
    ensures w.lineLen + w.blit2Len == FRAM_WID
    ensures w.blit2Len > 0 <==> w.start + FRAM_WID > STRIP_WID
    ensures w.start == (centerX - FRAM_WID / 2 + STRIP_WID) % 120
  {
    var s := centerX - FRAM_WID / 2;
    var s := if s < 0 then STRIP_WID + s else s;
    if s + FRAM_WID > STRIP_WID then Window(s, STRIP_WID - s, FRAM_WID - (STRIP_WID - s))
    else Window(s, FRAM_WID, 0)
  }

  class Compass {
    const cStrip: array<Byte>
    const scrOrigX: int
    const scrOrigY: int
    var lastDir: int

    ghost predicate Valid()
      reads this`lastDir
    {
      cStrip.Length == STRIP_SIZE && 0 <= lastDir <= STRIP_WID &&
      0 <= scrOrigX && scrOrigX + FRAM_WID <= SCREEN_WIDTH &&
      0 <= scrOrigY && scrOrigY + FRAM_DEP <= SCREEN_HEIGHT
    }

    /**
     * The strip is the image the source grabs from the cockpit picture.
     * The source leaves lastDir unset; the model starts it at 0.
     */
    constructor (origX: int, origY: int, strip: array<Byte>)
      requires strip.Length == STRIP_SIZE
      requires 0 <= origX && origX + FRAM_WID <= SCREEN_WIDTH
      requires 0 <= origY && origY + FRAM_DEP <= SCREEN_HEIGHT
      ensures Valid() && cStrip == strip && lastDir == 0
      ensures scrOrigX == origX && scrOrigY == origY
    {
      cStrip := strip;
      scrOrigX, scrOrigY := origX, origY;
      lastDir := 0;
    }

    /** Compass::Set: record the heading when it is a strip position, then show the window. */
    method Set(heading: nat, screen: array<Byte>)
      requires Valid() && screen.Length == SCREEN_SIZE && screen != cStrip
      modifies this`lastDir, screen
      ensures Valid()
      ensures lastDir == CompassDir(old(lastDir), heading)
      ensures Shows(screen, CompassWindow(lastDir).start)
      ensures forall k ::
        0 <= k < SCREEN_SIZE && !InRect(k, scrOrigX, scrOrigY, scrOrigX + FRAM_WID - 1, scrOrigY + FRAM_DEP - 1)
        ==> screen[k] == old(screen[k])
    {
      lastDir := CompassDir(lastDir, heading);
      BlitBox(lastDir, screen);
    }

    /**
     * The screen shows the 25 strip columns from `start` on, wrapping
     * round the 120-column strip, on each of the five rows.
     */
    ghost predicate Shows(screen: array<Byte>, start: int)
      requires Valid() && screen.Length == SCREEN_SIZE
      reads this`lastDir, screen, cStrip
    {
      forall i, j :: 0 <= i < FRAM_DEP && 0 <= j < FRAM_WID ==>
        screen[At(scrOrigX, scrOrigY, i, j)] == cStrip[i * 120 + (start + j) % 120]
    }

    /**
     * Compass::BlitBox: the window from the strip to the screen, in one
     * copy or, when it runs past the end of the strip, in two.
     */
    method BlitBox(centerX: int, screen: array<Byte>)
      requires Valid() && 0 <= centerX <= STRIP_WID
      requires screen.Length == SCREEN_SIZE && screen != cStrip
      modifies screen
      ensures Shows(screen, CompassWindow(centerX).start)
      ensures forall k ::
        0 <= k < SCREEN_SIZE && !InRect(k, scrOrigX, scrOrigY, scrOrigX + FRAM_WID - 1, scrOrigY + FRAM_DEP - 1)
        ==> screen[k] == old(screen[k])
    {
      var w := CompassWindow(centerX);
      CopyRows(screen, w.start, scrOrigX, w.lineLen);
      ghost var first := screen[..];
      if w.blit2Len > 0 {
        CopyRows(screen, 0, scrOrigX + w.lineLen, w.blit2Len);
      }
      forall i, j | 0 <= i < FRAM_DEP && 0 <= j < FRAM_WID
        ensures screen[At(scrOrigX, scrOrigY, i, j)] == cStrip[i * 120 + (w.start + j) % 120]
      {
        OffsetCoords(scrOrigX + j, scrOrigY + i);
        if j < w.lineLen {
          assert (w.start + j) % 120 == w.start + j;
          if w.blit2Len > 0 {
            assert screen[At(scrOrigX, scrOrigY, i, j)] == first[At(scrOrigX, scrOrigY, i, j)];
          }
        } else {
          assert At(scrOrigX, scrOrigY, i, j) == At(scrOrigX + w.lineLen, scrOrigY, i, j - w.lineLen);
          assert (w.start + j) % 120 == j - w.lineLen;
        }
      }
    }

    /**
     * One pointer-walking copy of BlitBox: five rows of len bytes, the
     * strip advancing by its width and the screen by 320 per row.
     */
    method CopyRows(screen: array<Byte>, getStart: int, putX: int, len: int)
      requires Valid() && screen.Length == SCREEN_SIZE && screen != cStrip
      requires 0 <= getStart && getStart + len <= STRIP_WID && 0 <= len
      requires scrOrigX <= putX && putX + len <= scrOrigX + FRAM_WID
      modifies screen
      ensures forall i, j :: 0 <= i < FRAM_DEP && 0 <= j < len ==>
        screen[At(putX, scrOrigY, i, j)] == cStrip[getStart + i * 120 + j]
      ensures forall k ::
        0 <= k < SCREEN_SIZE && !InRect(k, putX, scrOrigY, putX + len - 1, scrOrigY + FRAM_DEP - 1)
        ==> screen[k] == old(screen[k])
    {
      var i := 0;
      while i < FRAM_DEP
        invariant 0 <= i <= FRAM_DEP
        invariant forall r, c :: 0 <= r < i && 0 <= c < len ==>
          screen[At(putX, scrOrigY, r, c)] == cStrip[getStart + r * 120 + c]
        invariant forall k ::
          0 <= k < SCREEN_SIZE && !InRect(k, putX, scrOrigY, putX + len - 1, scrOrigY + i - 1)
          ==> screen[k] == old(screen[k])
      {
        var j := 0;
        while j < len
          invariant 0 <= j <= len
          invariant forall r, c :: 0 <= r < i && 0 <= c < len ==>
            screen[At(putX, scrOrigY, r, c)] == cStrip[getStart + r * 120 + c]
          invariant forall c :: 0 <= c < j ==>
            screen[At(putX, scrOrigY, i, c)] == cStrip[getStart + i * 120 + c]
          invariant forall k ::
            0 <= k < SCREEN_SIZE &&
            !InRect(k, putX, scrOrigY, putX + len - 1, scrOrigY + i - 1) &&
            !InRect(k, putX, scrOrigY + i, putX + j - 1, scrOrigY + i)
            ==> screen[k] == old(screen[k])
        {
          OffsetCoords(putX + j, scrOrigY + i);
          screen[At(putX, scrOrigY, i, j)] := cStrip[getStart + i * 120 + j];
          j := j + 1;
        }
        i := i + 1;
      }
    }
  }
}
