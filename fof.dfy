/**
 * The frame driver: the ground approach that decides between a safe
 * landing and a crash, and the order of the steps in one rendered frame.
 */
module Fof {
  import opened Aircraft
  import opened Input
  import opened ViewControl

  /** How a pass ends with respect to the ground. */
  datatype Approach = NoContact | Crashed | Landed

  /** A pitch or a roll beyond ten degrees either way. */
  predicate Steep(pitch: real, roll: real)
  {
    pitch > 10.0 || pitch < -10.0 || roll > 10.0 || roll < -10.0
  }

  /**
   * The outcome of the ground check: only an airborne aircraft in flight
   * mode at or below the ground touches it, and it crashes when it comes
   * in too steep.
   */
  function ApproachOf(mode: int, airborne: bool, altitude: int, pitch: real, roll: real): (a: Approach)
    ensures a != NoContact <==> mode == FLIGHT && airborne && altitude <= 0
    ensures a == Landed <==> a != NoContact && -10.0 <= pitch <= 10.0 && -10.0 <= roll <= 10.0
    ensures !airborne ==> a == NoContact
  {
    if mode == FLIGHT && airborne && altitude <= 0 then
      if Steep(pitch, roll) then Crashed else Landed
    else
      NoContact
  }

  /**
   * The ground check of one pass, with the operating mode it tests passed
   * in: a crash restores the start-up state, a landing levels the aircraft
   * on the ground. Either way the aircraft is no longer airborne, so a
   * second check in a row finds no contact.
   */
  method GroundCheck(fm: FlightModel, sv: StateVector, mode: int) returns (a: Approach)
    modifies sv, fm`dPitch, fm`dYaw, fm`dRoll
    ensures a == ApproachOf(mode, old(sv.airborne), old(sv.altitude), old(sv.pitch), old(sv.roll))
    ensures a == NoContact ==> unchanged(sv) && unchanged(fm`dPitch, fm`dYaw, fm`dRoll)
    ensures a == Crashed ==> sv.IsStartState()
    ensures a == Landed ==>
      !sv.airborne && sv.pitch == 0.0 && sv.roll == 0.0 && sv.yPos == SEA_LVL_Y &&
      unchanged(sv`opMode, sv`xPos, sv`zPos, sv`yaw, sv`altitude, sv`hSpeed, sv`viewState)
    ensures a != NoContact ==> !sv.airborne && fm.dPitch == 0.0 && fm.dYaw == 0.0 && fm.dRoll == 0.0
    ensures ApproachOf(mode, sv.airborne, sv.altitude, sv.pitch, sv.roll) == NoContact
  {
    a := NoContact;
    if mode == FLIGHT {
      if sv.airborne && sv.altitude <= 0 {
        if (sv.pitch > 10.0 || sv.pitch < -10.0) || (sv.roll > 10.0 || sv.roll < -10.0) {
          a := Crashed;
          fm.ResetACState(sv);
        } else {
          a := Landed;
          fm.LandAC(sv);
        }
      }
    }
  }

  /** The ground check on the mode held in the state vector. */
  method GroundApproach(fm: FlightModel, sv: StateVector) returns (a: Approach)
    modifies sv, fm`dPitch, fm`dYaw, fm`dRoll
    ensures a == ApproachOf(old(sv.opMode), old(sv.airborne), old(sv.altitude), old(sv.pitch), old(sv.roll))
    ensures a == NoContact ==> unchanged(sv) && unchanged(fm`dPitch, fm`dYaw, fm`dRoll)
    ensures a == Crashed ==> sv.IsStartState()
    ensures a == Landed ==>
      !sv.airborne && sv.pitch == 0.0 && sv.roll == 0.0 && sv.yPos == SEA_LVL_Y &&
      unchanged(sv`xPos, sv`zPos, sv`yaw, sv`altitude, sv`hSpeed, sv`viewState)
    ensures a != NoContact ==> !sv.airborne && fm.dPitch == 0.0 && fm.dYaw == 0.0 && fm.dRoll == 0.0
    ensures sv.opMode == old(sv.opMode)
    ensures ApproachOf(sv.opMode, sv.airborne, sv.altitude, sv.pitch, sv.roll) == NoContact
  {
    a := GroundCheck(fm, sv, sv.opMode);
  }

  /**
   * One frame: controls are read, the flight model runs, the view is
   * aimed, and only then is the ground checked, so the frame that touches
   * down is still drawn from the attitude the flight model produced.
   */
  method DemoRender(controls: Controls, fm: FlightModel, cockpit: Cockpit, sv: StateVector,
                    down: set<Key>, ticks: nat, trig: Trig) returns (a: Approach)
    requires controls.Valid() && fm.Valid() && 0 <= sv.viewState <= 3
    modifies controls, fm, fm.frameTimes, cockpit, sv
    ensures controls.Valid() && fm.Valid() && 0 <= sv.viewState <= 3
    ensures fm.loopTime == LoopTimeOf(ticks)
    ensures fm.frmIndex == (old(fm.frmIndex) + 1) % NUM_FRMS
    ensures sv.opMode == old(sv.opMode)
    ensures a == NoContact ==>
      cockpit.ViewAttitude() == ViewAngles(sv.Angles(), sv.viewState, old(cockpit.viewOfs)) &&
      sv.altitude == AltitudeOf(sv.yPos)
    ensures a != NoContact ==> sv.opMode == FLIGHT && !sv.airborne
    ensures ApproachOf(sv.opMode, sv.airborne, sv.altitude, sv.pitch, sv.roll) == NoContact
  {
    hide PassStep; hide Poll; hide Controls.PanelOf; hide FlightModel.StateOf;
    controls.GetControls(sv, down);
    fm.RunFModel(sv, ticks, trig);
    var _ := cockpit.UpdateView(sv);
    a := GroundApproach(fm, sv);
  }
}
