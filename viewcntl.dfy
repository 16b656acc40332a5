/**
 * The cockpit view control of src/viewcntl.h: mirroring the side-view
 * image, the per-view remapping of the aircraft's angles, the one-frame
 * lagging yaw offset of the view, the choice of view window, and the
 * compass heading shown on the instrument panel.
 */
module ViewControl {
  import opened Common
  import opened Aircraft
  import opened Screen

  /** Length of a screen line, the size of FlipFrame's line buffer. */
  const GFX_LINE: int := 320

  /** Yaw offsets, in degrees, of the forward, right, rear and left views. */
  const RT2LFT_OFS: seq<int> := [0, -90, 180, 90]

  // ---------------------------------------------------------------------
  // FlipFrame: every row of a packed image reversed in place
  // ---------------------------------------------------------------------

  /** The place a pixel of a pix-wide packed image moves to when its row is reversed. */
  function MirrorIndex(k: int, pix: int): int
  {
    Cell(Row(k, pix), pix - 1 - Col(k, pix), pix)
  }

  /** Mirroring keeps a pixel in its row, in the opposite column, and undoes itself. */
  lemma MirrorIndexInRow(k: int, lines: int, pix: int)
    requires 0 <= lines && 0 <= k < lines * pix
    ensures Row(MirrorIndex(k, pix), pix) == Row(k, pix)
    ensures Col(MirrorIndex(k, pix), pix) == pix - 1 - Col(k, pix)
    ensures 0 <= MirrorIndex(k, pix) < lines * pix
    ensures MirrorIndex(MirrorIndex(k, pix), pix) == k
  {
    RowColCell(k, pix, lines);
    var r, c := Row(k, pix), Col(k, pix);
    CellRowCol(r, pix - 1 - c, pix);
    CellInRows(r, pix - 1 - c, lines, pix);
  }

  /**
   * s with each of its first `lines` rows of `pix` bytes reversed; the
   * bytes after lines * pix are left as they are.
   */
  function Mirrored(s: seq<Byte>, lines: nat, pix: nat): (m: seq<Byte>)
    requires lines * pix <= |s|
    ensures |m| == |s|
  {
    seq(|s|, k requires 0 <= k < |s| => if k < lines * pix then MirrorOf(s, lines, pix, k) else s[k])
  }

  /** The byte of s that lands at k when its row is reversed. */
  function MirrorOf(s: seq<Byte>, lines: nat, pix: nat, k: int): Byte
    requires lines * pix <= |s| && 0 <= k < lines * pix
  {
    MirrorIndexInRow(k, lines, pix);
    s[MirrorIndex(k, pix)]
  }

  /** Flipping a frame twice gives back the original frame. */
  lemma MirroredTwice(s: seq<Byte>, lines: nat, pix: nat)
    requires lines * pix <= |s|
    ensures Mirrored(Mirrored(s, lines, pix), lines, pix) == s
  {
    var m := Mirrored(s, lines, pix);
    var mm := Mirrored(m, lines, pix);
    forall k | 0 <= k < |s|
      ensures mm[k] == s[k]
    {
      if k < lines * pix {
        MirrorIndexInRow(k, lines, pix);
      }
    }
  }

  /** s with the pix bytes from ofs on in reverse order. */
  function RowReversed(s: seq<Byte>, ofs: int, pix: int): (r: seq<Byte>)
    requires 0 <= ofs && 0 <= pix && ofs + pix <= |s|
    ensures |r| == |s|
  {
    seq(|s|, k requires 0 <= k < |s| => if ofs <= k < ofs + pix then s[ofs + (pix - 1) - (k - ofs)] else s[k])
  }

  /** Mirroring one more row, at byte k. */
  lemma MirroredStep(s: seq<Byte>, i: nat, pix: nat, k: int)
    requires (i + 1) * pix <= |s| && 0 <= k < |s|
    ensures i * pix + pix <= |s|
    ensures Mirrored(s, i + 1, pix)[k] == RowReversed(Mirrored(s, i, pix), i * pix, pix)[k]
  {
    MulSucc(i, pix);
    MulMonotone(0, i, pix);
    if k < i * pix {
      assert Mirrored(s, i + 1, pix)[k] == MirrorOf(s, i + 1, pix, k) == MirrorOf(s, i, pix, k);
    } else if k < i * pix + pix {
      CellRowCol(i, k - i * pix, pix);
      assert MirrorIndex(k, pix) == i * pix + (pix - 1) - (k - i * pix);
      assert Mirrored(s, i + 1, pix)[k] == MirrorOf(s, i + 1, pix, k);
    }
  }

  /** Mirroring one more row reverses that row and changes nothing else. */
  lemma MirroredNextRow(s: seq<Byte>, i: nat, pix: nat)
    requires (i + 1) * pix <= |s|
    ensures i * pix + pix <= |s|
    ensures Mirrored(s, i + 1, pix) == RowReversed(Mirrored(s, i, pix), i * pix, pix)
  {
    MulSucc(i, pix);
    MulMonotone(0, i, pix);
    forall k | 0 <= k < |s|
      ensures Mirrored(s, i + 1, pix)[k] == RowReversed(Mirrored(s, i, pix), i * pix, pix)[k]
    {
      MirroredStep(s, i, pix, k);
    }
  }

  /**
   * FlipFrame reverses, in place, each of the y2-y1+1 rows of the
   * x2-x1+1 byte wide image packed in buf, so a side view drawn for one
   * side serves the other.
   */
  method FlipFrame(x1: int, y1: int, x2: int, y2: int, buf: array<Byte>)
    requires y2 < y1 ||
      (0 <= x2 - x1 + 1 <= GFX_LINE && (y2 - y1 + 1) * (x2 - x1 + 1) <= buf.Length)
    modifies buf
    ensures y2 < y1 ==> buf[..] == old(buf[..])
    ensures y1 <= y2 ==> buf[..] == Mirrored(old(buf[..]), y2 - y1 + 1, x2 - x1 + 1)
  {
    var lines := (y2 - y1) + 1;
    var pix := (x2 - x1) + 1;
    var gfxLnBuf := new Byte[GFX_LINE];
    var i := 0;
    while i < lines
      invariant 0 <= i && (lines > 0 ==> i <= lines)
      invariant lines <= 0 ==> buf[..] == old(buf[..])
      invariant lines > 0 ==> i * pix <= buf.Length && buf[..] == Mirrored(old(buf[..]), i, pix)
    {
      MulMonotone(i + 1, lines, pix);
      MirroredNextRow(old(buf[..]), i, pix);
      var ofs := i * pix;
      ReverseRow(buf, ofs, pix, gfxLnBuf);
      i := i + 1;
    }
  }

  /**
   * One row of FlipFrame: the pix bytes from ofs on are copied to the line
   * buffer and written back from its end to its start.
   */
  method ReverseRow(buf: array<Byte>, ofs: int, pix: int, gfxLnBuf: array<Byte>)
    requires 0 <= ofs && 0 <= pix && ofs + pix <= buf.Length
    requires pix <= gfxLnBuf.Length && gfxLnBuf != buf
    modifies buf, gfxLnBuf
    ensures buf[..] == RowReversed(old(buf[..]), ofs, pix)
  {
    MemCopy(gfxLnBuf, 0, buf, ofs, pix);
    var j := pix - 1;
    while j > -1
      invariant -1 <= j <= pix - 1
      invariant forall t :: 0 <= t < pix ==> gfxLnBuf[t] == old(buf[ofs + t])
      invariant forall k :: 0 <= k < buf.Length ==>
        buf[k] == if ofs <= k < ofs + ((pix - 1) - j) then old(buf[ofs + (pix - 1) - (k - ofs)]) else old(buf[k])
      modifies buf
    {
      buf[ofs + ((pix - 1) - j)] := gfxLnBuf[j];
      j := j - 1;
    }
    assert buf[..] == RowReversed(old(buf[..]), ofs, pix);
  }

  // ---------------------------------------------------------------------
  // ViewShift: the aircraft's angles seen from the chosen window
  // ---------------------------------------------------------------------

  /**
   * Looking out of a side window turns the world a quarter turn about the
   * line of sight: the right view (1) takes roll from pitch and pitch from
   * minus the whole degrees of roll, the rear view (2) negates both, the
   * left view (3) is the right view the other way round; any other view
   * (the forward one, 0) leaves the angles alone.
   */
  function Remapped(att: Attitude, view: int): Attitude
  {
    if view == 1 then Attitude(-(Trunc(att.roll) as real), att.yaw, att.pitch)
    else if view == 2 then Attitude(-att.pitch, att.yaw, -att.roll)
    else if view == 3 then Attitude(Trunc(att.roll) as real, att.yaw, -att.pitch)
    else att
  }

  /**
   * The view angles ViewShift leaves: yaw turned by the view offset, the
   * angles remapped for the window, then the same wrap of roll and yaw and
   * the same reflection of a pitch past the vertical as the flight model's
   * rotation step.
   */
  function ViewAngles(att: Attitude, view: int, ofs: int): Attitude
  {
    Reflected(Wrapped(Remapped(Attitude(att.pitch, att.yaw + ofs as real, att.roll), view)))
  }

  /** A whole number of degrees. */
  predicate Whole(a: real)
  {
    a == a.Floor as real
  }

  /**
   * On whole-degree angles the side remaps are quarter turns: the right
   * view applied twice is the rear view, and the left view undoes the
   * right one.
   */
  lemma SideViewsAreQuarterTurns(att: Attitude)
    requires Whole(att.pitch) && Whole(att.roll)
    ensures Remapped(Remapped(att, 1), 1) == Remapped(att, 2)
    ensures Remapped(Remapped(att, 1), 3) == att
    ensures Remapped(Remapped(att, 3), 1) == att
  {
    TruncWhole(att.pitch);
    TruncWhole(att.roll);
    TruncWhole(-att.pitch);
    TruncWhole(-att.roll);
  }

  /** Truncating a whole number of degrees gives it back. */
  lemma TruncWhole(a: real)
    requires Whole(a)
    ensures Whole(-a) && Trunc(a) as real == a
  {
    var n := a.Floor;
    assert -a == (-n) as real;
    assert (-a).Floor == -n;
  }

  /** The rear view, twice, is no remap at all. */
  lemma RearViewTwice(att: Attitude)
    ensures Remapped(Remapped(att, 2), 2) == att
  {
  }

  /** The forward view with no offset leaves angles already in range as they are. */
  lemma ForwardViewUnchanged(att: Attitude)
    requires InRange(att)
    ensures ViewAngles(att, 0, 0) == att
  {
  }

  /**
   * From angles in the flight model's ranges and any of the four view
   * offsets, every view gives angles in the same ranges: pitch in
   * [-90, 90], roll and yaw in [-180, 180].
   */
  lemma ViewAnglesInRange(att: Attitude, view: int, ofs: int)
    requires InRange(att) && ofs in RT2LFT_OFS
    ensures InRange(ViewAngles(att, view, ofs))
  {
    var r := Remapped(att.(yaw := att.yaw + ofs as real), view);
    assert -180.0 <= r.pitch <= 180.0 && -180.0 <= r.roll <= 180.0;
    assert -360.0 <= r.yaw <= 360.0;
  }

  // ---------------------------------------------------------------------
  // The compass heading
  // ---------------------------------------------------------------------

  /**
   * The compass heading UpdateInstruments derives from yaw: yaw counts
   * counter-clockwise and the compass clockwise, so the heading is minus
   * the whole degrees of yaw, taken into [0, 360).
   */
  function CompassDirection(yaw: real): (d: int)
    ensures -360.0 <= yaw < 360.0 ==> d == (-yaw.Floor) % 360
    ensures -360.0 <= yaw < 360.0 ==> 0 <= d <= 359
  {
    var direction := yaw.Floor;
    var direction := if direction < 0 then direction + 360 else direction;
    if direction != 0 then 360 - direction else direction
  }

  // ---------------------------------------------------------------------
  // The view window
  // ---------------------------------------------------------------------

  /** The arguments of setview: the view's centre and its rectangle on the screen. */
  datatype Window = Window(cx: int, cy: int, x1: int, y1: int, x2: int, y2: int)

  const FRONT_WINDOW: Window := Window(159, 73, 0, 0, 319, 147)
  const SIDE_WINDOW: Window := Window(160, 100, 0, 0, 319, 170)
  const REAR_WINDOW: Window := Window(160, 100, 0, 0, 319, 199)

  /** The window UpdateView sets up for an operating mode and view. */
  function WindowFor(opMode: int, view: int): (w: Window)
    requires 0 <= view < 4
    ensures Fits(w.x1, w.y1, w.x2, w.y2)
    ensures w.x1 <= w.cx <= w.x2 && w.y1 <= w.cy <= w.y2
  {
    if opMode == WALK then REAR_WINDOW
    else if view == 0 then FRONT_WINDOW
    else if view == 2 then REAR_WINDOW
    else SIDE_WINDOW
  }

  /**
   * Walking, the view is always the full-screen rear window; flying, the
   * windows of different views differ exactly where the cockpit picture
   * covers a different part of the screen: the two side views share one.
   */
  lemma WindowsByView(opMode: int, view: int)
    requires 0 <= view < 4
    ensures opMode == WALK ==> WindowFor(opMode, view) == REAR_WINDOW
    ensures opMode != WALK ==>
      (WindowFor(opMode, view) == SIDE_WINDOW <==> view == 1 || view == 3)
    ensures opMode != WALK ==> (WindowFor(opMode, view) == FRONT_WINDOW <==> view == 0)
  {
  }

  // ---------------------------------------------------------------------
  // The view state kept between frames
  // ---------------------------------------------------------------------

  /**
   * The file-scope state of the view control: the angles of the current
   * view, the yaw offset of the view last selected and the window handed
   * to the 3D view system.
   */
  class Cockpit {
    var viewOfs: int
    var acPitch: real
    var acYaw: real
    var acRoll: real
    var window: Window

    function ViewAttitude(): Attitude
      reads this`acPitch, this`acYaw, this`acRoll
    {
      Attitude(acPitch, acYaw, acRoll)
    }

    /** Static storage starts zeroed: the forward offset and level angles. */
    constructor ()
      ensures viewOfs == 0 && ViewAttitude() == Attitude(0.0, 0.0, 0.0)
    {
      viewOfs := 0;
      acPitch, acYaw, acRoll := 0.0, 0.0, 0.0;
      window := Window(0, 0, 0, 0, 0, 0);
    }

    /**
     * ViewShift: the state vector's angles, turned by the current view
     * offset and remapped for the current view, as the view angles.
     */
    method ViewShift(sv: StateVector)
      modifies this`acPitch, this`acYaw, this`acRoll
      ensures ViewAttitude() == ViewAngles(Attitude(sv.pitch, sv.yaw, sv.roll), sv.viewState, viewOfs)
    {
      acPitch := sv.pitch;
      acYaw := sv.yaw;
      acRoll := sv.roll;

      acYaw := acYaw + viewOfs as real;
      RemapForView(sv.viewState);
      WrapRollAndYaw();
      ReflectPastVertical();
    }

    /** The switch on the view state in ViewShift. */
    method RemapForView(view: int)
      modifies this`acPitch, this`acRoll
      ensures ViewAttitude() == Remapped(old(ViewAttitude()), view)
    {
      if view == 1 {
        var temp := Trunc(acRoll);
        acRoll := acPitch;
        acPitch := -(temp as real);
      } else if view == 2 {
        acPitch := -acPitch;
        acRoll := -acRoll;
      } else if view == 3 {
        var temp := Trunc(acRoll);
        acRoll := -acPitch;
        acPitch := temp as real;
      }
    }

    /** ViewShift's bounds check: roll and yaw past 180 either way come round once. */
    method WrapRollAndYaw()
      modifies this`acYaw, this`acRoll
      ensures ViewAttitude() == Wrapped(old(ViewAttitude()))
    {
      if acRoll > 180.0 {
        acRoll := -180.0 + (acRoll - 180.0);
      } else if acRoll < -180.0 {
        acRoll := 180.0 + (acRoll - -180.0);
      }
      if acYaw > 180.0 {
        acYaw := -180.0 + (acYaw - 180.0);
      } else if acYaw < -180.0 {
        acYaw := 180.0 + (acYaw - -180.0);
      }
    }

    /** ViewShift's special case of a pitch past the vertical. */
    method ReflectPastVertical()
      modifies this`acPitch, this`acYaw, this`acRoll
      ensures ViewAttitude() == Reflected(old(ViewAttitude()))
    {
      if acPitch > 90.0 || acPitch < -90.0 {
        if acRoll >= 0.0 {
          acRoll := acRoll - 180.0;
        } else if acRoll < 0.0 {
          acRoll := acRoll + 180.0;
        }
        if acYaw >= 0.0 {
          acYaw := acYaw - 180.0;
        } else if acYaw < 0.0 {
          acYaw := acYaw + 180.0;
        }
        if acPitch > 0.0 {
          acPitch := 180.0 - acPitch;
        } else if acPitch < 0.0 {
          acPitch := -180.0 - acPitch;
        }
      }
    }

    /**
     * The view bookkeeping of UpdateView: the angles are shifted with the
     * offset of the view selected on the previous frame, and only then is
     * the offset of the current view recorded, so a view change turns the
     * yaw one frame late. The window follows the view, or is the rear
     * window while walking; the instruments are redrawn only when flying
     * with the forward view.
     */
    method UpdateView(sv: StateVector) returns (instruments: bool)
      requires 0 <= sv.viewState < 4
      modifies this`acPitch, this`acYaw, this`acRoll, this`viewOfs, this`window
      ensures ViewAttitude() == ViewAngles(Attitude(sv.pitch, sv.yaw, sv.roll), sv.viewState, old(viewOfs))
      ensures viewOfs == RT2LFT_OFS[sv.viewState]
      ensures window == WindowFor(sv.opMode, sv.viewState)
      ensures instruments <==> sv.opMode != WALK && sv.viewState == 0
    {
      ViewShift(sv);
      viewOfs := RT2LFT_OFS[sv.viewState];
      if sv.opMode == WALK {
        window := REAR_WINDOW;
      } else if sv.viewState == 0 {
        window := FRONT_WINDOW;
      } else if sv.viewState == 1 {
        window := SIDE_WINDOW;
      } else if sv.viewState == 2 {
        window := REAR_WINDOW;
      } else if sv.viewState == 3 {
        window := SIDE_WINDOW;
      }
      instruments := sv.opMode != WALK && sv.viewState == 0;
    }
  }
}
