# Flights of Fantasy, modelled in Dafny

This project models the core of *Flights of Fantasy*, a small DOS-era flight
simulator (in its C++/SDL port): the software 3D render pipeline (the
fixed-point matrix engine, world and view transforms, near-plane and viewport
clipping, backface removal, the polygon list and its depth sort, and the
two-edge polygon scan converter), the flight model's state machine (the
frame-time ring buffer, engine rpm, inertial damping, rotation rates, angle
wrap-around, position accumulators, reset and landing), the raster primitives
(pixels, rectangle copies, bar fill, Bresenham lines, palette range guards),
the cockpit view control (side-view mirroring, per-view angle remapping, the
lagging view offset, window choice, compass heading), the keyboard control
interface, the index arithmetic of the cockpit gauges, the world-file
tokenizer and loader, the frame driver with its crash-or-land rule, and the
DOS main module's command-line parsing and staged shutdown.

One Dafny module stands for each source file (`view.h` is split into
`ViewClip`, `ViewSort` and `View`). Code that updates state in place is
modelled imperatively: the file-scope globals of a source file become the
fields of a class, buffers become arrays, and each method is proved against a
specification function over values. Pure computations become functions, and
the properties that relate several calls are lemmas.

Numeric conventions:
- `float` and `double` values are `real`s.
- C's truncating division is `Common.TruncDiv`.
- The `sin`, `cos` and `atan` functions and the fixed-point `COS`/`SIN` tables are parameters.
- `SHIFT`, `ONE` and `SHIFT_MULT` come from `fix.h`, which is not part of this model. They are constant fields of the transform engine.
- The frame timer (`SDL_GetTicks64`) enters as the ticks argument of `RunFModel`.
- The keys held down enter as a set of keys.
- The world file enters as a character sequence.

## Model

| member | source | states |
|---|---|---|
| Common.TruncDiv | src/input.h:201 | C's division truncating toward zero: for b > 0, \|q\| = \|a\| / b with the sign of a |
| Screen.WritePixel | src/screen.h:10-13 | only the byte at y·320 + x becomes the colour; every other byte keeps its value |
| Screen.BufSizeTiles | src/screen.h:158-163 | every cell (row, column) of the rectangle has the offset row·width + column below BufSize, and every offset below BufSize is exactly one cell |
| Screen.MemCopy | src/screen.h:26 | the n bytes from the source offset land at the destination offset; nothing else in the destination changes |
| Screen.MemSet | src/screen.h:152 | n bytes from the offset become the value; nothing else changes |
| Screen.GetImage | src/screen.h:19-28 | dest[i·xdim + j] = src[(y1+i)·320 + x1 + j] for the whole rectangle, the rest of dest unchanged |
| Screen.PutImage | src/screen.h:36-45 | the rectangle of the framebuffer receives the buffer row by row; bytes outside the rectangle are unchanged |
| Screen.PutUndoesGet | src/screen.h:36-45 | putting back an image taken from the same rectangle leaves the framebuffer as it was |
| Screen.GetUndoesPut | src/screen.h:19-45 | taking the image just put back gives the buffer that was put |
| Screen.BarFill | src/screen.h:148-154 | every byte of rows y1..y2, columns x1..x2 becomes the colour, and no other byte changes |
| Screen.Trace | src/screen.h:55-101 | the line's pixel offsets: max(\|dx\|,\|dy\|)+1 of them, the first at y1·320 + x1 |
| Screen.PenAtInvariant | src/screen.h:77-100 | after i steps the pen is i along the longer side, and the error term is i·(shorter side) − moves·(longer side), kept within one longer-side step |
| Screen.LineInBox | src/screen.h:55-101 | every pixel of the line lies in the bounding box of its end points |
| Screen.LineOnScreen | src/screen.h:55-101 | a line between on-screen end points writes only inside the 320×200 screen |
| Screen.LineSteps | src/screen.h:78-100 | x-major: each step moves one column and at most one row; y-major: one row and at most one column |
| Screen.LineDistinct | src/screen.h:55-101 | the line's pixels are pairwise distinct, so exactly max(\|dx\|,\|dy\|)+1 bytes are written |
| Screen.LineEndsAtEndPoint | src/screen.h:78-100 | with the corrected x-major test the last pixel is (x2, y2) |
| Screen.LineAsWrittenFallsShort | src/screen.h:84-87 | as written, an x-major line with y1 ≠ y2 ends at (x2, y2 − yunit) |
| Screen.LineAsWrittenExample | src/screen.h:84-87 | from (0,0) to (2,1) the written test ends at (2,0), the corrected one at (2,1) |
| Screen.LineAsWrittenPens | src/screen.h:84-87 | from (0,0) to (2,1) the third pen is (2,0) under the written test and (2,1) under the corrected one |
| Screen.Line | src/screen.h:55-101 | the pixels of the trace become the colour and no other byte changes |
| Screen.XMajorPasses | src/screen.h:78-88 | the x-major loop writes exactly the trace's pixels |
| Screen.YMajorPasses | src/screen.h:89-100 | the y-major loop writes exactly the trace's pixels |
| Screen.ReadPalette | src/screen.h:105-118 | when 0 ≤ start ≤ 256 and start + number ≤ 256, bytes 3·start up to 3·(start + number) get the red, green and blue levels of the registers; otherwise the palette is unchanged |
| Screen.ClrPalette | src/screen.h:121-129 | under the same guard registers start up to start + number − 1 become black; every other register, and all of them when the guard fails, are unchanged |
| Poly.MatMult | src/poly.h:77-86 | result[i][j] = (Σk mat1[i][k]·mat2[k][j]) >> SHIFT for every entry |
| Poly.MatCopy | src/poly.h:88-97 | dest equals source entrywise |
| Poly.Transformer.InitTrans | src/poly.h:100-107 | the master matrix becomes ONE on the diagonal and 0 elsewhere |
| Poly.Transformer.Scale | src/poly.h:109-122 | pre-multiplies: matrix := smat × matrix, smat holding zs at [0][0], ys at [1][1], xs at [2][2] |
| Poly.Transformer.Reflect | src/poly.h:124-135 | post-multiplies by the reflection matrix |
| Poly.Transformer.Rotate | src/poly.h:137-172 | matrix := matrix × ymat × xmat × zmat, in that order |
| Poly.Transformer.Translate | src/poly.h:174-190 | post-multiplies by the identity with row 3 = (xt<<SHIFT, yt<<SHIFT, zt·SHIFT_MULT, ONE) |
| Poly.Transformer.Transform | src/poly.h:192-202 | each vertex's wx, wy, wz are its local coordinates through the matrix; every other field is unchanged |
| Poly.Transformer.ATransform | src/poly.h:204-214 | each vertex's ax, ay, az are its world coordinates through the matrix; every other field is unchanged |
| Poly.Worlded | src/poly.h:198-200 | the world coordinates of one vertex; only wx, wy, wz differ from the input |
| Poly.Aligned | src/poly.h:210-212 | the aligned coordinates of one vertex; only ax, ay, az differ from the input |
| Poly.ProductIdentityLeft | src/poly.h:100-107 | the identity matrix is a left unit of the fixed-point product |
| Poly.ProductIdentityRight | src/poly.h:100-107 | the identity matrix is a right unit of the fixed-point product |
| Poly.ApplyIdentity | src/poly.h:192-201 | transforming by the identity leaves a point where it is |
| Poly.ApplyTranslation | src/poly.h:182-185 | the translation matrix moves a point by (xt, yt, zt) |
| Poly.ApplyScaleSwapsAxes | src/poly.h:114-117 | the scale matrix multiplies x by zs and z by xs: the axes are swapped against the parameter names |
| Poly.RotationsKeepTheirAxis | src/poly.h:147-166 | each rotation matrix leaves the coordinate of its own axis unchanged |
| Poly.RotationByZero | src/poly.h:169-171 | rotating by zero on every axis is the identity when COS 0 is ONE and SIN 0 is 0 |
| Aircraft.StateVector.SetStartConditions | src/aircraft.h:150-160 | FLIGHT mode at x = 0, y = −20 (sea level), z = −7000, all angles 0, a full 8-gallon tank, consumption 8, on the ground with the brake set |
| Aircraft.StateVector.Clear | src/aircraft.h:147 | every field of the record is zero or false, as memset leaves it |
| Aircraft.DegsRads | src/aircraft.h:187-204 | radians back to degrees gives the angle again, or the angle + 360 for a negative one; an angle in (−180, 180] maps into [0, 2π) |
| Aircraft.PoweredRpm | src/aircraft.h:210-237 | the rpm is never negative; with the ignition off it runs down by half the loop time per pass until it reaches 0 |
| Aircraft.PowerAtTargetHolds | src/aircraft.h:220-225 | with the ignition on, an rpm at the throttle's target rpm stays there |
| Aircraft.PowerAboveTargetFalls | src/aircraft.h:223-225 | with the ignition on, an rpm above the target falls |
| Aircraft.PowerBelowTargetRises | src/aircraft.h:220-222 | with the ignition on, an rpm below the target rises, and does not pass the target when the step is no larger than the gap |
| Aircraft.PowerBelowTargetCanFall | src/aircraft.h:220-225 | the second test is not an else, so an overshoot is taken back in the same pass: 370 rpm at throttle 0 (target 375) with loop time 41 ends at 369 |
| Aircraft.Damp | src/aircraft.h:322-343 | zero stays zero, the sign never flips, the magnitude never grows, and a non-zero result is at least 0.01 in magnitude |
| Aircraft.DampSettles | src/aircraft.h:322-343 | a rate below 0.01·(10/9)^n in magnitude is exactly 0 after n + 1 passes |
| Aircraft.DampZeroStays | src/aircraft.h:325 | a zero rate stays zero for any number of passes |
| Aircraft.TurnRate | src/aircraft.h:348-358 | roll·0.0005 for 0 < \|roll\| ≤ 90 and 0 otherwise; always within ±0.045 |
| Aircraft.GroundedRates | src/aircraft.h:371-386 | on the ground the ailerons leave the roll rate unchanged and the elevator never raises the pitch rate |
| Aircraft.AirborneRollRate | src/aircraft.h:371-377 | airborne, a non-zero aileron adds six times its torque (speed·aileron/10000) to the roll rate |
| Aircraft.WrapAngle | src/aircraft.h:413-422 | the angle, or the angle ∓ 360; an angle in [−540, 540] ends in [−180, 180], and one already in range is unchanged |
| Aircraft.Opposite | src/aircraft.h:426-435 | the angle ± 180, staying in [−180, 180] |
| Aircraft.Reflected | src/aircraft.h:425-441 | a pitch within ±90 leaves the attitude unchanged; beyond it the pitch becomes 180 − p or −180 − p, which lands in [−90, 90] for a pitch within ±270 |
| Aircraft.DeadBand | src/aircraft.h:444-452 | 0 exactly when the angle is in (−0.5, 0.5); any other angle is unchanged |
| Aircraft.RotatedInRange | src/aircraft.h:404-453 | from an attitude in range, with rates within ±90 and sine and cosine within ±1, the rotated attitude is in range: pitch in [−90, 90], roll and yaw in [−180, 180] |
| Aircraft.DisplacementIgnoresRoll | src/aircraft.h:521-545 | the displacement of one pass is (d·cos θ·sin ψ, −d·sin θ, d·cos θ·cos ψ) for distance d, flight angle θ and yaw ψ; the roll plays no part |
| Aircraft.Accumulate | src/aircraft.h:551-567 | the accumulator stays in [−1, 1]; it keeps the delta, with the position unchanged, exactly when the sum stays within [−1, 1], and is cleared otherwise |
| Aircraft.AccumulateCommits | src/aircraft.h:551-567 | a sum past one unit either way clears the accumulator and moves the position strictly: forward for z, back for x and y, and the other way for a sum below minus one |
| Aircraft.AltitudeOf | src/aircraft.h:569 | altitude + y = −20, so the altitude is zero exactly at sea level |
| Aircraft.LoopTimeOf | src/aircraft.h:496-499 | ticks / 1000, but never less than 1 |
| Aircraft.BrakeSlows | src/aircraft.h:261-266 | braking on the ground lowers a forward speed, sets a speed not above 0 to 0, and never goes below −1 |
| Aircraft.BrakeStops | src/aircraft.h:261-266 | braking stops the aircraft: a speed of at most n is 0 after n + 1 passes |
| Aircraft.BrakeHolds | src/aircraft.h:264-265 | a standing aircraft with the brake set stays standing for any number of passes |
| Aircraft.ThrustTowardsIdeal | src/aircraft.h:254-268 | without the brake, the speed never moves away from the ideal speed rpm/17.5 + 1.5·pitch |
| Aircraft.VerticalSpeed | src/aircraft.h:283-287 | on the ground never negative; airborne, gravity for the loop time plus the lift velocity |
| Aircraft.ClimbRate | src/aircraft.h:288-289 | the climb rate has the sign of the vertical speed |
| Aircraft.FeetTravelled | src/aircraft.h:291-293 | the distance has the sign of the speed and is zero exactly when the speed is |
| Aircraft.FlightAngle | src/aircraft.h:295-299 | with no distance flown the flight angle is −atan of the vertical speed |
| Aircraft.StallStep | src/aircraft.h:304-315 | the pitch is unchanged or, while stalled, one degree higher from 30 degrees or below; a stall starts only below 40 mph on a descending path with the nose more than 20 degrees under it |
| Aircraft.StallStaysClear | src/aircraft.h:304-315 | with the nose above 30 degrees no stall starts, whatever the passes |
| Aircraft.StallRecovers | src/aircraft.h:309-315 | a stall ends once there have been enough passes for the nose to rise past 30 degrees |
| Aircraft.FlightModel.Frames | src/aircraft.h:110-114 | in [0, 500], and 0 exactly when the buffer has not wrapped and the index is 0 |
| Aircraft.FlightModel.ReportFrameRate | src/aircraft.h:104-127 | with frames recorded, the loop time becomes the truncated average of the saved frame times and is returned; with none, nothing is returned and the loop time is 0 |
| Aircraft.FlightModel.AddFrameTime | src/aircraft.h:134-142 | the loop time is stored at the index, the index advances modulo 500, and the wrap flag latches when it comes round |
| Aircraft.FlightModel.ResetACState | src/aircraft.h:145-164 | the state vector is the start state and all three rates are 0 |
| Aircraft.FlightModel.LandAC | src/aircraft.h:167-176 | on the ground, pitch and roll 0, at sea level, rates 0; only those fields change |
| Aircraft.FlightModel.InitAircraft | src/aircraft.h:179-184 | the start state, loop time 0, the frame buffer not wrapped, rates 0 |
| Aircraft.FlightModel.CalcPowerDyn | src/aircraft.h:210-237 | the engine runs exactly when the ignition is on, and the rpm is PoweredRpm |
| Aircraft.FlightModel.CalcFlightDyn | src/aircraft.h:245-316 | speed, vertical speed, climb rate, distance, flight angle and stall state are those the functions above give for the old state |
| Aircraft.FlightModel.InertialDamp | src/aircraft.h:322-343 | each of the three rates is damped once |
| Aircraft.FlightModel.CalcROC | src/aircraft.h:365-398 | each rate gains the torque of its control (roll and pitch as GroundedRates and AirborneRollRate describe) |
| Aircraft.FlightModel.ApplyRots | src/aircraft.h:404-453 | the attitude becomes the old one turned by the rates, wrapped, reflected past the vertical and dead-banded |
| Aircraft.FlightModel.DoWalk | src/aircraft.h:460-467 | the distance comes from the throttle at WALK_RATE/15 per minute over the loop time, the slope is the pitch in radians, the speed 140 |
| Aircraft.FlightModel.RunFModel | src/aircraft.h:488-575 | loop time LoopTimeOf(ticks), recorded in the ring buffer; the flight state becomes PassStep of the old one (speeds, then rotations, then the move); altitude = −(y + 20); airborne latches once the altitude is non-zero; mode and view unchanged |
| Aircraft.FlightModel.StepAircraft | src/aircraft.h:505-513 | the flight state becomes PassStep of the old one: the speed phase, the rotation phase and the move phase in the source's order |
| Aircraft.FlightModel.MoveAircraft | src/aircraft.h:521-574 | each axis accumulates its component of the displacement, committing whole units, so the state becomes MovePhase of the old one; the altitude follows y and airborne latches |
| Aircraft.FlightModel.UpdateSpeeds | src/aircraft.h:505-510 | walking, or the engine and then the flight dynamics: the flight values become SpeedsStep of the old ones |
| Aircraft.FlightModel.UpdateRotations | src/aircraft.h:511-513 | the rates are damped, driven by the controls and applied: the state becomes RotationsPhase of the old one |
| Aircraft.SpeedsStepMeaning | src/aircraft.h:210-316 | walking keeps engine, climb and stall and walks at 140; flying runs the engine exactly when the ignition is on, climbs with the sign of the vertical speed, never sinks on the ground, starts a stall only below 40, and raises the pitch only by a stall's one degree from 30 or below |
| Aircraft.MovePhase | src/aircraft.h:521-574 | the accumulators stay within one unit; the altitude is the one the new height gives; airborne latches exactly when the altitude is non-zero |
| Aircraft.PassStep | src/aircraft.h:505-574 | a whole pass keeps the accumulators within one unit and the altitude tied to the height |
| Aircraft.PassStepKeepsAttitude | src/aircraft.h:404-574 | from any state whose flight pitch equals its attitude pitch, stalled or not, with rates within 90 degrees and bounded sine and cosine, a pass keeps the attitude in range, the two pitches equal, and every input but the airborne latch, so it holds pass after pass |
| Input.FirstDown | src/input.h:56-89 | none exactly when no key of the order is down; otherwise a key that is down with every earlier key of the order up |
| Input.SingleKeyEvent | src/input.h:56-89 | with one key down, that key is the event |
| Input.LeftBeatsRight | src/input.h:60-63 | with the left arrow, the right arrow and F1 down, the left arrow is the event |
| Input.StickStep | src/input.h:97-127 | with the positive request the position steps up by the sensitivity, or is 127; otherwise with the negative one it steps down, or is −128; with neither it returns to 0 |
| Input.StickStepInRange | src/input.h:97-127 | the accumulator stays in [−128, 127] |
| Input.StickHeldValue | src/input.h:97-102 | holding a key for n calls from the centre gives min(15n, 127) |
| Input.Reduce | src/input.h:199-221 | always within ±15; the deflection divided by 7 with truncation for \|d\| ≤ 105; ±15 beyond ±111 |
| Input.ReduceOdd | src/input.h:199-206 | remapping is symmetric about zero |
| Input.ReduceZero | src/input.h:199-206 | exactly the deflections with \|d\| < 7 remap to 0 |
| Input.RaisesInjective | src/input.h:56-89 | distinct keys raise distinct requests |
| Input.RaisedAtMostOne | src/input.h:56-89 | every pending request stays pending and at most one is added |
| Input.Consume | src/input.h:97-111 | the positive request is cleared; the negative one stays only when both were pending; other requests stay |
| Input.Controls.CheckKeys | src/input.h:56-89 | the pending requests gain the request of the first key down |
| Input.Controls.CalcKeyControls | src/input.h:95-128 | both stick axes step by their requests, which are consumed |
| Input.Controls.CalcStndControls | src/input.h:133-175 | rudder step, throttle step, ignition and brake toggles, and the requests left pending |
| Input.Controls.CalcRudder | src/input.h:135-148 | the rudder follows the stick rule and consumes its requests |
| Input.Controls.CalcThrottle | src/input.h:150-156 | the throttle moves as ThrottleStep says and the requests are consumed as ThrottleConsumed says |
| Input.Controls.CalcToggles | src/input.h:158-174 | ignition and brake flip exactly when their requests are pending, and those requests are cleared |
| Input.Controls.CheckViewControls | src/input.h:180-195 | the view becomes the pending request ViewRequest picks, or stays; only the honoured request is cleared |
| Input.Controls.ReduceIndices | src/input.h:199-221 | each of the three deflections is remapped |
| Input.Controls.PollControls | src/input.h:226-231 | the panel (requests, stick, rudder, throttle, toggles, view) becomes Poll of the old panel and the keys down: key check, stick, standard controls, view, in that order; the throttle stays in [0, 15] and the view in {0, 1, 2, 3} |
| Input.Controls.GetControls | src/input.h:226-237 | the panel becomes Poll of the old one; aileron, elevator and rudder are the remapped stick and rudder positions, all in [−15, 15] |
| Input.Poll | src/input.h:226-231 | a panel in range stays in range, and no request is left pending that was neither pending before nor raised by the keys |
| Input.ControlPhasesConsume | src/input.h:95-175 | after the stick and standard phases only throttle and view requests can be pending, and the view requests are untouched |
| Input.ViewPhaseClears | src/input.h:180-195 | the view phase keeps the other requests, clears one view request, and leaves at most one; with a single view request none is left |
| Input.PollConsumes | src/input.h:95-231 | when only blocked throttle requests are pending, a poll leaves only such requests pending |
| Input.PollLeavesLeftover | src/input.h:95-231 | at most one view request and otherwise only throttle requests stay pending, poll after poll |
| Input.PollIdle | src/input.h:97-231 | with no key down and nothing pending, a poll only recentres the stick and the rudder |
| Input.PollAileronLeft | src/input.h:60-110 | the left arrow moves the stick x by −15 (or to −128) and leaves nothing pending |
| Input.PollThrottleUp | src/input.h:150-231 | the throttle-up key below 15 raises the throttle by one and leaves nothing pending |
| Input.PollIgnition | src/input.h:158-231 | the ignition key flips the ignition and changes nothing else but the recentring |
| Input.PollIgnitionTwice | src/input.h:158-231 | two ignition presses restore the ignition |
| Input.PollView | src/input.h:180-231 | F1 to F4 select views 0 to 3 and leave nothing pending |
| Input.ThrottleConsumed | src/input.h:150-156 | throttle-up stays pending exactly when the throttle is at 15; throttle-down stays exactly when throttle-up moved the throttle or it is at 0; other requests stay |
| Input.ThrottleStep | src/input.h:150-156 | one up when requested below 15; otherwise one down when requested above 0; otherwise unchanged; a throttle in [0, 15] stays there |
| Input.ViewRequest | src/input.h:182-194 | none exactly when no view request is pending; forward whenever it is pending; always a view in [0, 3] |
| Input.ViewCleared | src/input.h:182-194 | at most one request is cleared, and exactly one when a view request is pending |
| Gauges.ToUnsigned | src/gauges.h:261 | below 2^32, and an int already in that range is unchanged |
| Gauges.KphIndex | src/gauges.h:303-317 | always one of the 32 dial points: the first up to 20, the last from 175 |
| Gauges.KphIndexMonotone | src/gauges.h:306-315 | a higher speed never shows a lower point |
| Gauges.AltimeterIndices | src/gauges.h:261-277 | the thousands and hundreds hands in [0, 19], the feet hand in [0, 39] |
| Gauges.FeetHandIsIntegral | src/gauges.h:274-277 | the feet hand is 2·(altitude mod 100)/5: the float division by 2.5, truncated |
| Gauges.AltimeterReads | src/gauges.h:266-277 | below 10000 feet the thousands hand is altitude/500 and the hundreds hand (altitude mod 1000)/50 |
| Gauges.AltimeterPeriodic | src/gauges.h:266 | the altimeter turns over every 10000 feet |
| Gauges.RpmIndexAsWritten | src/gauges.h:339-345 | the index is within the 17 points exactly below 2125 rpm |
| Gauges.RpmIndexOverruns | src/gauges.h:342-345 | the engine step takes 2129 rpm at full throttle to 2130, whose written index is 17, one past the last point |
| Gauges.RpmIndex | src/gauges.h:339-349 | always one of the 17 points, and the written index below 2125 rpm |
| Gauges.RpmIndexOverrunsByOne | src/gauges.h:339-349 | the engine step never takes an rpm at or below the 2130 full-throttle target above it, so the written index is at most 17, one past the last point and no further |
| Gauges.SlipIndex | src/gauges.h:368-379 | none outside [−9, 9]; otherwise deflection + 9 in [0, 18] |
| Gauges.SlipMirrors | src/gauges.h:372-377 | opposite deflections give points mirrored about the middle one |
| Gauges.FuelIndex | src/gauges.h:225-239 | for a non-zero eighth of the tank, a point exactly when the fuel is at most a full tank: the eighth the fuel has reached, the last at full |
| Gauges.FuelGauge.constructor | src/gauges.h:212-222 | the gauge keeps the tank size it is given |
| Gauges.FuelGauge.Set | src/gauges.h:225-242 | the search answers FuelIndex of the tank's eighth and the fuel, None included where the source leaves the point unset |
| Gauges.FuelIndexOverfull | src/gauges.h:229-240 | an 8-gallon tank holding 9 gallons gets no point from the search |
| Gauges.FuelPoint | src/gauges.h:38-42 | always one of the 9 points: the one the search finds when it finds one, and Full for more fuel than the tank holds |
| Gauges.FuelPointMonotone | src/gauges.h:38-42 | more fuel never shows a lower point on the corrected gauge |
| Gauges.FuelSearchMeetsIndex | src/gauges.h:229-239 | wherever the search loop stops, its answer is FuelIndex |
| Gauges.CompassDir | src/gauges.h:413-424 | a heading ≤ 359 divisible by 3 gives a strip position in [1, 120]; any other heading keeps the last position |
| Gauges.CompassDirSteps | src/gauges.h:415-423 | heading h goes to 60 + h/3, less 120 past 180 degrees, and three degrees more is the next position round the strip |
| Gauges.CompassWindow | src/gauges.h:444-453 | the start is (centre − 12 + 120) mod 120; the two pieces add up to 25 columns, with a second piece exactly when the window runs past the strip's end |
| Gauges.Compass.constructor | src/gauges.h:386-401 | the strip and the screen origin as given, the frame on the screen; lastDir starts at 0 |
| Gauges.Compass.Set | src/gauges.h:413-427 | lastDir becomes CompassDir of the heading and the window around it is shown; nothing outside the frame changes |
| Gauges.Compass.BlitBox | src/gauges.h:432-487 | the frame shows the window's 25 strip columns, wrapping round the strip, on all five rows; nothing outside the frame changes |
| Gauges.Compass.CopyRows | src/gauges.h:459-469 | five rows of len bytes from the strip (stride 120) to the screen (stride 320); nothing outside that box changes |
| ViewControl.MirrorIndexInRow | src/viewcntl.h:147-155 | a mirrored pixel stays in its row, in the opposite column, and mirroring undoes itself |
| ViewControl.MirroredTwice | src/viewcntl.h:141-156 | flipping twice restores the buffer |
| ViewControl.MirroredNextRow | src/viewcntl.h:149-155 | mirroring one more row reverses that row and changes nothing else |
| ViewControl.FlipFrame | src/viewcntl.h:141-156 | the buffer becomes Mirrored(old buffer): rows reversed in place, only the first lines·pix bytes touched |
| ViewControl.ReverseRow | src/viewcntl.h:150-154 | one row copied to the line buffer and written back reversed |
| ViewControl.SideViewsAreQuarterTurns | src/viewcntl.h:199-214 | on whole degrees, right twice is rear, and left undoes right |
| ViewControl.RearViewTwice | src/viewcntl.h:205-208 | the rear remap twice is no remap |
| ViewControl.ForwardViewUnchanged | src/viewcntl.h:192-246 | the forward view with offset 0 leaves an attitude in range unchanged |
| ViewControl.ViewAnglesInRange | src/viewcntl.h:192-246 | every view, with any of the four offsets, keeps an attitude in range in range |
| ViewControl.CompassDirection | src/viewcntl.h:168-175 | for a yaw in [−360, 360) the direction is (−floor(yaw)) mod 360, always in [0, 359] |
| ViewControl.WindowFor | src/viewcntl.h:300-310 | a window on the screen with its centre inside it |
| ViewControl.WindowsByView | src/viewcntl.h:300-310 | walking gives the rear window; flying, the side window exactly for views 1 and 3 and the front window exactly for view 0 |
| ViewControl.Cockpit.ViewShift | src/viewcntl.h:192-246 | the view angles are ViewAngles of the state vector's angles, the view and the current offset |
| ViewControl.Cockpit.RemapForView | src/viewcntl.h:199-214 | view 1: roll ← pitch, pitch ← −trunc(roll); view 2 negates both; view 3: roll ← −pitch, pitch ← trunc(roll); view 0 unchanged |
| ViewControl.Cockpit.WrapRollAndYaw | src/viewcntl.h:217-226 | roll and yaw past ±180 come round once |
| ViewControl.Cockpit.ReflectPastVertical | src/viewcntl.h:229-245 | a pitch past ±90 is reflected, with roll and yaw turned by 180 |
| ViewControl.Cockpit.UpdateView | src/viewcntl.h:290-329 | the angles use the previous frame's offset, the new offset is RT2LFT_OFS[view], the window is WindowFor the mode and view, and instruments are drawn exactly when flying forward |
| View.Update | src/view.h:447-468 | with the update flag set, the matrix becomes the object's pose (scale, rotations, position) and its vertices get world coordinates through it; with the flag 0, the vertices and every matrix are unchanged; the flag ends 0 |
| View.UnitPoseIsTranslation | src/view.h:451-460 | unit scale and no rotation leave only the translation |
| View.UnitPoseMovesByPosition | src/view.h:447-468 | such an object's vertices move by its position |
| View.SetAlignMatrix | src/view.h:433-439 | the master matrix becomes the translation followed by the rotations |
| View.AlignView | src/view.h:430-445 | the matrix becomes the viewer's, and every object's aligned coordinates are its world coordinates through it |
| View.AlignObjects | src/view.h:442-444 | every object's aligned coordinates are its world coordinates through the current matrix |
| View.LevelViewIsTranslation | src/view.h:433-439 | a viewer with no rotation gives the translation by minus its position |
| View.LevelViewSubtractsPosition | src/view.h:430-445 | such a viewer sees every point moved by minus its position |
| View.ExtentEncloses | src/view.h:630-659 | every corner lies within the extremes the vertex loop finds |
| View.ExtentIsAttained | src/view.h:630-659 | each extreme is a coordinate of some corner |
| View.CentreDistance | src/view.h:669-673 | never negative |
| View.BoundedEnclosesCorners | src/view.h:629-673 | the recorded box holds every corner and the distance is that of its centre; no other field changes |
| View.ListedFrom | src/view.h:622-679 | never more entries than polygons |
| View.ListedFromSound | src/view.h:622-679 | every entry has zmax > 1 and is the bounded copy of a non-backface polygon |
| View.ListedFromComplete | src/view.h:622-679 | every listable polygon's bounded copy is in the list |
| View.Marked | src/view.h:622-679 | one entry per polygon |
| View.MarkedAt | src/view.h:622-679 | backfaces stay as they were; the others get their box |
| View.ListedWithinTotal | src/view.h:613-684 | the list never holds more entries than there are polygons |
| View.BoundPolygon | src/view.h:629-673 | the polygon with its box and distance, as Bounded gives them |
| View.ListPolygon | src/view.h:625-679 | one pass of the polygon loop keeps the marking and listing invariants |
| View.ListObject | src/view.h:622-680 | the object's polygons become Marked, the rest of its array is untouched, and the list gains ListedFrom after count |
| View.ListShape | src/view.h:616-681 | the list holds the entries of one more object, whose polygons are marked; other objects' arrays are unchanged |
| View.MakePolygonList | src/view.h:607-685 | the list is, object by object, every non-backface polygon with zmax > 1, with its box and distance, and fits in its array; every object's polygons are marked |
| View.ListObjects | src/view.h:616-681 | the list holds ListedUpTo of the n shapes, and all of them are marked |
| View.Project | src/view.h:45-50 | only x and y change |
| View.ProjectAtScreenDistance | src/view.h:48-49 | a point at the screen's distance keeps its offsets from the origin |
| View.ProjectedClip | src/view.h:38-51 | projecting the slots zclip filled gives the projection of the near-clipped corners, none of them at z = 0 |
| View.Viewer.SetView | src/view.h:15-31 | the window, origin, distance, colours and buffer as given, with half the width and height by truncating division; the list is kept |
| View.Viewer.InitWorld | src/view.h:33-36 | a fresh list array with room for polycount polygons |
| View.Viewer.CProject | src/view.h:38-51 | the first numberOfVertices slots are projected; the others are unchanged |
| View.Viewer.DrawPolygonList | src/view.h:687-713 | one layer of spans per listed polygon, each on row ymin or below and within columns xmin..xmax; the screen is the old screen painted with those layers in list order, each in its polygon's colour; only those colours are written |
| View.Viewer.DrawListed | src/view.h:695-711 | the screen is the old screen painted with this polygon's spans in its colour; no span when the near clip or the window clip leaves no corner; otherwise every span on row ymin or below and within columns xmin..xmax |
| View.Viewer.ClippedCornersInWindow | src/view.h:115-260 | after xyclip every corner left lies in [xmin, xmax] × [ymin, ymax] |
| View.LastCoverWins | src/view.h:687-713 | painter's order: a byte shows the colour of the last listed polygon that covers it |
| View.UncoveredKept | src/view.h:687-713 | a byte no listed polygon covers keeps its old value |
| ViewClip.ZCrossing | src/view.h:93-96 | the crossing point lies exactly on the plane z = 2 |
| ViewClip.ZEdge | src/view.h:82-107 | at most two corners per edge |
| ViewClip.ZClipAllInFront | src/view.h:77-109 | a polygon wholly in front of the near plane is kept as it is |
| ViewClip.ZClipAllBehind | src/view.h:77-109 | a polygon wholly behind it leaves nothing |
| ViewClip.ZClipBounds | src/view.h:77-109 | every output corner has z ≥ 2 and is an input corner or a crossing with z = 2; at most twice as many corners |
| ViewClip.ZClip | src/view.h:53-113 | the colour is copied; xmin and xmax are written three times in the source and end as the polygon's ymin and ymax; the slots get the near-clipped corners and the count is theirs |
| ViewClip.NearClipSlots | src/view.h:70-112 | the loop places the near-clipped corners in the x, y, z of the first slots and counts them |
| ViewClip.ZEdgeOutput | src/view.h:82-107 | the four case tests of one edge give ZEdge |
| ViewClip.PutXYZ | src/view.h:84-106 | the corners go into the x, y, z of the next slots |
| ViewClip.Crossing | src/view.h:122-259 | the crossing carries the boundary coordinate exactly |
| ViewClip.PassEdge | src/view.h:122-259 | at most two corners per edge |
| ViewClip.PassInside | src/view.h:122-259 | a pass keeps only the inside of its edge; each corner is an input corner or a crossing on the edge |
| ViewClip.PassAllInside | src/view.h:122-259 | a polygon wholly inside passes unchanged |
| ViewClip.CrossingBetween | src/view.h:122-259 | a crossing lies on its edge: each coordinate is between those of the edge's end points |
| ViewClip.CrossingBetweenColumns | src/view.h:136-147 | the crossing of the left or right edge has its y between the end points' y, after truncation |
| ViewClip.CrossingBetweenRows | src/view.h:239-253 | the crossing of the top or bottom edge has its x between the end points' x, after truncation |
| ViewClip.PassKeepsHalf | src/view.h:122-259 | a pass keeps every half-plane all its input corners lie in |
| ViewClip.PassWindow | src/view.h:122-259 | a pass keeps the window edges already clipped against and adds its own |
| ViewClip.XYClippedInWindow | src/view.h:115-260 | every corner the four passes leave lies in [xmin, xmax] × [ymin, ymax] |
| ViewClip.PassIntoX1Y1 | src/view.h:122-153 | the count and the (x1, y1) pairs become the pass of the (x, y) pairs; the colour is kept |
| ViewClip.ClipSlotsIntoX1Y1 | src/view.h:122-153 | the pass loop from the (x, y) pairs into the (x1, y1) pairs |
| ViewClip.PassIntoXY | src/view.h:155-186 | the count and the (x, y) pairs become the pass of the (x1, y1) pairs; the colour is kept |
| ViewClip.ClipSlotsIntoXY | src/view.h:155-186 | the pass loop from the (x1, y1) pairs into the (x, y) pairs |
| ViewClip.PutX1Y1 | src/view.h:131-132 | corners go into the (x1, y1) of the next slots |
| ViewClip.PutXY | src/view.h:164-165 | corners go into the (x, y) of the next slots |
| ViewClip.EdgeOutput | src/view.h:128-152 | the four case tests of one edge give PassEdge |
| ViewClip.XYClip | src/view.h:115-260 | the (x, y) pairs become the left, right, top and bottom passes of the old ones in turn; the colour is kept, and so is the depth of every slot; only the count and the slots change |
| ViewSort.FirstCornerOnPlane | src/view.h:332-335 | the first corner satisfies the plane equation |
| ViewSort.PlaneOfRotates | src/view.h:332-335 | the coefficients do not depend on which corner comes first |
| ViewSort.PlaneThroughCorners | src/view.h:322-335 | the plane passes through all three corners |
| ViewSort.BackfaceMeansViewerBehind | src/view.h:404-428 | backface holds exactly when the viewer is on the negative side of the plane |
| ViewSort.BackfaceIsPlaneOffset | src/view.h:415-427 | the triple product is the plane's constant term |
| ViewSort.BackfaceWindingFlips | src/view.h:412-427 | swapping the second and third corner negates the value |
| ViewSort.ZOverlap | src/view.h:279-295 | 0 or −1; ZOverlapMeansCommonDepth gives its meaning |
| ViewSort.XYOverlap | src/view.h:297-314 | 0 or −1; for proper boxes, non-zero exactly when the two boxes share a point |
| ViewSort.OverlapsSymmetric | src/view.h:279-314 | both overlap tests are symmetric |
| ViewSort.ZOverlapMeansCommonDepth | src/view.h:279-295 | non-zero exactly when the open z extents share a depth |
| ViewSort.SurfaceOutside | src/view.h:316-350 | true exactly when every corner of poly1 is on or above poly2's plane |
| ViewSort.SurfaceInside | src/view.h:352-385 | true exactly when every corner of poly2 is on or below poly1's plane |
| ViewSort.ShouldBeSwapped | src/view.h:387-402 | −1 exactly when the boxes overlap in x and y and both plane tests fail; 0 otherwise |
| ViewSort.TriangleNotSwappedWithItself | src/view.h:387-402 | a triangle's corners lie on its own plane, so both plane tests pass against itself |
| ViewSort.Exchanged | src/view.h:270-272 | entries i and i + 1 exchanged and every other entry kept: a permutation |
| ViewSort.Swap | src/view.h:270-272 | the array becomes Exchanged |
| ViewSort.SweepSettles | src/view.h:267-275 | at the end of a sweep one more entry is settled |
| ViewSort.SweepStep | src/view.h:268-274 | one comparison, with an exchange when out of order, keeps the sweep invariant and the multiset; entries past n untouched |
| ViewSort.BubblePass | src/view.h:266-275 | one sweep: a permutation that settles one more entry; a sweep without exchanges leaves adjacent entries in order |
| ViewSort.ZSort | src/view.h:262-277 | the first numberOfPolygons entries end sorted by non-increasing distance, the array is a permutation of the old one, and entries past the count are untouched |
| DrawPoly.PrevVertex | src/drawpoly.h:39-42 | an index in [0, n) whose next index is v |
| DrawPoly.NextVertex | src/drawpoly.h:45-48 | (v + 1) mod n, an index in [0, n) |
| DrawPoly.PrevUndoesNext | src/drawpoly.h:282-301 | the walking directions undo each other |
| DrawPoly.FindTop | src/drawpoly.h:22-30 | a corner with the least y, the first such |
| DrawPoly.StartEdge | src/drawpoly.h:54-84 | starts at the first corner with error 0, the absolute extents, the x direction, a count of the longer extent, and on its edge |
| DrawPoly.FinishedEdgeAtEnd | src/drawpoly.h:89-98 | a finished walker stands on its end column |
| DrawPoly.Plot | src/drawpoly.h:96 | the byte at the offset becomes the colour when the offset is on the screen; nothing else changes |
| DrawPoly.XDominantStep | src/drawpoly.h:89-99 | stays on its edge and scanline and moves towards the end column by the columns it counts off; each pixel plotted is a one-pixel span on the walker's row, past its start column and no further than where it stops; the screen is the old one painted with those spans |
| DrawPoly.YDominantStep | src/drawpoly.h:193-199 | the count drops by one, x moves by at most one unit in its direction, and the offset follows x |
| DrawPoly.YDominantStepOnEdge | src/drawpoly.h:193-199 | a y-dominant step keeps the bookkeeping |
| DrawPoly.StepEdge | src/drawpoly.h:78-84 | steps by dominance as the two steps above; stays on its edge, between where it was and its end column; a y-dominant step plots nothing, an x-dominant one the pixels above; the screen is the old one painted with them |
| DrawPoly.NextLine | src/drawpoly.h:127-130 | one scanline down with the same x, count and error term; the offset follows y |
| DrawPoly.NextLineOnEdge | src/drawpoly.h:127-130 | the next line keeps the walker on its edge |
| DrawPoly.FillSpan | src/drawpoly.h:117-126 | the bytes from the smaller offset through the larger become the colour; nothing else changes |
| DrawPoly.ScanEdges | src/drawpoly.h:85-131 | both walkers stay on their edges, between their start and end columns, until one edge is finished; one fill per scanline from the start row, from a column on edge 1 to a column on edge 2, at least one when both edges have steps; every span on the rows walked and within any columns holding both edges; the screen is the old one painted with the spans |
| DrawPoly.ScanLine | src/drawpoly.h:89-130 | one scanline: both edges step, the fill runs from edge 1 to edge 2 on their row, and both move a row down; all spans on that row and within the edges' columns |
| DrawPoly.ScanPass | src/drawpoly.h:53-131 | sets up both edges and scans them until one is finished; at least one fill when neither edge starts at its end; spans on the rows walked and within the corners' columns |
| DrawPoly.DrawPolygon | src/drawpoly.h:5-303 | starts at a top corner (least y); one fill per scanline from the top row down, at least one when both neighbours of the top corner are apart from it; every span on those rows and within the columns of the corners; the screen is the old one painted with the spans in the polygon's colour, and only that colour is written |
| DrawPoly.PaintConcat | src/drawpoly.h:85-131 | painting two span lists one after the other is painting their concatenation |
| LoadPoly.SignificantHasNoBlanks | src/loadpoly.h:14-22 | no white space and no comment mark is ever significant |
| LoadPoly.SignificantOfSpace | src/loadpoly.h:15 | white space contributes nothing |
| LoadPoly.SignificantSkipsComment | src/loadpoly.h:16-17 | a comment from '*' through its newline contributes nothing |
| LoadPoly.SignificantOfDigits | src/loadpoly.h:37-40 | digits pass through in order |
| LoadPoly.SignificantAfterSpace | src/loadpoly.h:15 | leading white space is dropped |
| LoadPoly.DigitRunIsMaximal | src/loadpoly.h:37-40 | the run is all digits and ends at a non-digit or the end |
| LoadPoly.NumberLength | src/loadpoly.h:33-41 | never longer than the text, and at least one character of a non-empty text |
| LoadPoly.MinusAloneIsZero | src/loadpoly.h:33-41 | a '-' followed by a non-digit reads 0 and uses up two characters |
| LoadPoly.NumberRoundTrip | src/loadpoly.h:25-42 | reading back a number written in decimal gives it, using up exactly what was written and the separator |
| LoadPoly.UnsignedNumber | src/loadpoly.h:37-41 | digits followed by a separator read as their decimal value, using up the digits and the separator |
| LoadPoly.NumberSpansGaps | src/loadpoly.h:37-40 | white space and a comment between two digit runs do not end the number: they read as one |
| LoadPoly.SpaceEnd | src/loadpoly.h:15 | the first position at or after p that is not white space, or the end |
| LoadPoly.SigFromIsSignificant | src/loadpoly.h:14-22 | the characters nextchar returns from position p are the significant characters of the rest of the file |
| LoadPoly.DigitsFromMeaning | src/loadpoly.h:37-40 | the digit loop reads the leading digit run of the significant characters, accumulated after d, and leaves the position after the ending character |
| LoadPoly.NegativeNumber | src/loadpoly.h:33-41 | '-' then digits reads the negated value of the digits and uses up the ending character |
| LoadPoly.NonNegativeNumber | src/loadpoly.h:33-41 | without a sign, the value of the leading digits, using up the ending character |
| LoadPoly.ReadNumberMeaning | src/loadpoly.h:25-42 | getnumber reads the number at the front of the significant characters and leaves the rest |
| LoadPoly.NthValueMeaning | src/loadpoly.h:25-42 | number k read from the start is number k of the significant characters |
| LoadPoly.NumbersOfFile | src/loadpoly.h:57-140 | the k-th number read from the file is the k-th number of its significant characters |
| LoadPoly.Reader.Getc | src/loadpoly.h:15 | the next character's code, one position on; at the end EOF with the indicator set |
| LoadPoly.Reader.SkipSpace | src/loadpoly.h:15 | the first non-space character, with the position just after it; EOF at the end |
| LoadPoly.Reader.SkipComment | src/loadpoly.h:17 | the position is just after the next newline, or at the end with EOF |
| LoadPoly.Reader.NextChar | src/loadpoly.h:7-23 | the next significant character, with the position after it; at the end EOF, or 0 once the indicator is already set |
| LoadPoly.Reader.ScanDigits | src/loadpoly.h:37-40 | with a digit first, the value and position of the digit loop; otherwise 0 and nothing read |
| LoadPoly.Reader.GetNumber | src/loadpoly.h:25-42 | the number and the position ReadNumber gives |
| LoadPoly.Reader.Next | src/loadpoly.h:25-42 | the next number of the file's number sequence |
| LoadPoly.VerticesFromMeaning | src/loadpoly.h:91-101 | vertex j has numbers k + 3j .. k + 3j + 2 |
| LoadPoly.VerticesHaveUnitDummies | src/loadpoly.h:99-100 | every vertex has lt = wt = 1 |
| LoadPoly.CornersFromMeaning | src/loadpoly.h:127-130 | corners load exactly when every index is in [0, vertex count); corner j is number k + j |
| LoadPoly.PolygonAtMeaning | src/loadpoly.h:117-136 | a polygon loads exactly when its corner count is non-negative and every corner names a vertex; it is then well formed, with those corners and the colour after them |
| LoadPoly.PolygonsFromWellFormed | src/loadpoly.h:113-137 | every polygon loaded is well formed |
| LoadPoly.ObjectAtLoaded | src/loadpoly.h:63-144 | a loaded object is well formed, with the vertex count, polygon count and scale the file gives |
| LoadPoly.ObjectsFromLoaded | src/loadpoly.h:63-144 | every object loaded is well formed |
| LoadPoly.WorldLoaded | src/loadpoly.h:57-63 | a world has as many objects as its first number says |
| LoadPoly.ReadVertex | src/loadpoly.h:93-100 | three numbers as local coordinates, dummies 1 |
| LoadPoly.ReadVertices | src/loadpoly.h:88-101 | a new array of the n vertices VerticesFrom gives |
| LoadPoly.ReadCorners | src/loadpoly.h:124-130 | the corner loop gives CornersFrom |
| LoadPoly.ReadPolygon | src/loadpoly.h:115-136 | the polygon PolygonAt gives, or its error |
| LoadPoly.ReadPolygons | src/loadpoly.h:110-137 | a new array of the polygons PolygonsFrom gives, or its error |
| LoadPoly.ReadPlacement | src/loadpoly.h:68-82 | position, angles and scale: the next seven numbers |
| LoadPoly.NewObject | src/loadpoly.h:78-143 | a fresh object holding the record's fields and the given arrays |
| LoadPoly.ReadObject | src/loadpoly.h:65-143 | the object ObjectAt gives, fresh with arrays of its own, or its error |
| LoadPoly.ReadObjects | src/loadpoly.h:63-144 | the n objects ObjectsFrom gives, fresh and pairwise distinct with arrays of their own, and their polygon total; or its error |
| LoadPoly.WorldAtParts | src/loadpoly.h:57-63 | a negative object count fails; otherwise the objects that follow it |
| LoadPoly.Install | src/loadpoly.h:60 | the world's object array is fresh and holds the objects, each matching its record, with separate arrays |
| LoadPoly.ReadWorld | src/loadpoly.h:54-144 | the object count, and the objects WorldAt describes with their polygon total, or its error |
| LoadPoly.LoadPoly | src/loadpoly.h:44-149 | succeeds exactly when the file describes a world, with that world's error otherwise; the world then holds fresh objects matching the file's records, with separate arrays, and the result is the polygon total |
| Fof.ApproachOf | src/fof.cpp:25-33 | contact exactly in FLIGHT mode, airborne, at altitude ≤ 0; a landing exactly when contact comes with pitch and roll within ±10 |
| Fof.GroundCheck | src/fof.cpp:22-35 | no contact changes nothing; a crash restores the start state; a landing levels the aircraft at sea level on the ground; any contact stops the rates; afterwards there is no contact |
| Fof.GroundApproach | src/fof.cpp:22-35 | the ground check in the state vector's own mode, which it keeps; on contact the aircraft is on the ground and its rates are stopped |
| Fof.DemoRender | src/fof.cpp:37-43 | the frame is recorded with its loop time and the mode is kept; without contact the view follows the attitude with the previous offset and the altitude follows y; a contact leaves the aircraft on the ground; afterwards there is no contact |
| FsMain.ShutDownStages | ORIGINAL/FSIM/FSMAIN.CPP:96-106 | control, view and aircraft shut down iff checkpt ≥ 1, 2, 3; sound and video mode always, last |
| FsMain.Program.ShutDown | ORIGINAL/FSIM/FSMAIN.CPP:96-106 | the output gains the shutdown events |
| FsMain.ExitCode | ORIGINAL/FSIM/FSMAIN.CPP:176-189 | 1 when checkpt < 4, 0 otherwise |
| FsMain.TerminateOrder | ORIGINAL/FSIM/FSMAIN.CPP:170-195 | the shutdown events first, then the report (critical exactly when checkpt < 4), the frame-rate report only outside DEBUG, and the exit code last |
| FsMain.Program.Terminate | ORIGINAL/FSIM/FSMAIN.CPP:170-195 | the output gains the termination events and the exit code is returned |
| FsMain.ModeOfArg | ORIGINAL/FSIM/FSMAIN.CPP:307-320 | d/D DEBUG, ?/h/H HELP, w/W WALK, v/V VERSION, judged by the first character only |
| FsMain.ParseOf | ORIGINAL/FSIM/FSMAIN.CPP:301-325 | more than one parameter is rejected; none keeps the mode |
| FsMain.ParseSingle | ORIGINAL/FSIM/FSMAIN.CPP:305-321 | one parameter sets the mode by its first character, or is rejected as invalid |
| FsMain.ParsedModeKnown | ORIGINAL/FSIM/FSMAIN.CPP:307-321 | the mode is the one before parsing or one of the four named |
| FsMain.Program.ParseCLP | ORIGINAL/FSIM/FSMAIN.CPP:301-325 | the mode ParseOf gives with no output; a rejection also terminates and returns the exit code |
| FsMain.Program.GroundApproach | ORIGINAL/FSIM/FSMAIN.CPP:330-351 | the ground check in the program's mode; the crash display, sound check and key wait are added exactly on a crash; a landing levels the aircraft at sea level and keeps its position, heading, speed and view; any contact stops the rates |

## Left out

- Drawing: `display`, `draw_horizon` and `RETRO_BitBlit` are left out. The horizon needs floating-point trigonometry, and the blits are platform calls.
- The `Line`, `GetImage` and `PutImage` calls inside the gauge `Set` methods and constructors are left out. Only the index arithmetic of the gauges is modelled. `IgnitionSwitch` only draws images and is left out as well.
- Floating-point rounding: `float` and `double` become exact reals. Float-to-int casts become explicit truncations. `zclip`, `xyclip` and `cproject` interpolate on exact integers and reals.
- `MapAngles` scales angles by a float factor into the fixed-point degree range of `fix.h`. `fix.h` is not part of this model.
- The constants and tables of `fix.h` are parameters, not values.
- Platform calls are left out: SDL and RETRO, the timer, the delays, palette fades, and `printf` dumps (`ACDump`, `VectorDump`, the debug key of `CheckKeys`).
- `ClearScr` and `WaitVbi` are left out, because they are platform and video calls.
- `ShowCrash`, `SoundCheck` and the key wait of the DOS `GroundApproach` are recorded as events, not performed.
- The console text of `Terminate` is a `Report` event. Its frame-rate printout is a `FrameRateReport` event.
- DOS plumbing in `FSMAIN.CPP` is left out: `main`, `StartUp`, `DoTitleScreen`, `DisplayHelp`, `DisplayVersion`, `GrabRam`, `VectorDump`.
- ViewClip.ZClip: the 20-slot clip buffer is never checked in the source. The model requires that the clipped polygon fits, rather than modelling the overflow.
- ViewClip.XYClip: the same capacity requirement applies to each pass.
- DrawPoly.DrawPolygon: a span or pixel whose offset falls outside the screen buffer is not written in the model. The source writes out of bounds.
- DrawPoly.DrawPolygon: the four copies of the scanline loop, one per pair of edge dominances, are one loop over a walker per edge.
- Screen.Line: both end points must be on the screen. The source writes out of bounds otherwise.
- Screen.Line: the model uses the corrected x-major move test; see Findings.
- Screen.XMajorPasses: runs the corrected `>=` move test, not the source's `>`; see Findings.
- Poly.MatMult: the result must not alias an operand. In the source every call writes a separate matrix.
- Poly.MatMult: the overflow of the `long` products and sums (32 bits in the DOS build) is not modelled; entries are unbounded integers.
- Poly.Transformer.Transform: the overflow of the `long` products (32 bits in the DOS build) is not modelled.
- Poly.Transformer.ATransform: the overflow of the `long` products (32 bits in the DOS build) is not modelled.
- ViewSort.BackfaceValue: the source computes the triple product in `float`; the model computes it exactly on integers, so neither float rounding nor the loss of precision of large products is modelled.
- ViewSort.PlaneOf: the source computes the plane coefficients and the surface values in `float`; the model computes them exactly on integers.
- ViewSort.Backface: requires a polygon with at least three corners, all naming vertices of its object. LoadPoly.LoadPoly does not guarantee three corners; the source reads past the corner list for a smaller polygon.
- View.MakePolygonList: requires every polygon of the scene to be drawable as ViewSort.Backface does, which LoadPoly.LoadPoly does not guarantee for polygons of fewer than three corners.
- DrawPoly.DrawPolygon: the fills are proved to be one per row from the top corner down, and at least one when the top corner's neighbours are apart from it, but not to reach the bottom corner.
- DrawPoly.DrawPolygon: the spans are not proved to stay on or above the lowest corner's row. For an outline that is not convex, such as (0,0), (10,10), (5,2), (0,10), an edge that climbs is still walked one row down per step, so the walk can pass below the lowest corner.
- View.Viewer.DrawListed: the spans are proved to lie within columns xmin..xmax and on row ymin or below, not above row ymax, for the same reason.
- View.Viewer.DrawPolygonList: proves the window bounds for each polygon's spans, not that a polygon the clips remove draws nothing; View.Viewer.DrawListed states that per polygon.
- Gauges.FuelGauge.Set: models the search as written, so more fuel than the tank holds gives no point (None), where the source draws to an unset point; the intended Full point is Gauges.FuelPoint; see Findings.
- Polygons refer to their object by index, and to its vertices by index. In the source they hold pointers.
- Objects are class instances held by reference, not structs stored by value in an array.
- LoadPoly.LoadPoly: a negative count, or a corner index that names no vertex of its object, gives a `Failure`. The source allocates or indexes out of range. Reading stops at the first bad corner.
- LoadPoly.LoadPoly: the polygon count is added after the object's polygons are read, and the world's object array is built after all objects are read. The source does both before reading.
- LoadPoly.Reader.SkipComment: a comment at the end of the file with no newline stops at the end of the input. The source loops forever there.
- LoadPoly.Reader.GetNumber: the 32-bit overflow of `num` is not modelled.
- LoadPoly.Reader.Getc: characters are taken as their codes, and `fopen`/`fclose` are left out.
- LoadPoly.NewObject: fields the source leaves uninitialised start at 0.
- Gauges.Compass.constructor: `lastDir`, which the source leaves unset, starts at 0.
- Aircraft.FlightModel.CalcFlightDyn: `atan` and the trigonometry of `RunFModel` and `ApplyRots` are parameters. Their values are not modelled.
- Aircraft.FlightModel.ReportFrameRate: the average is computed; the printing is left out.

## Findings

| source | as written | input that shows it | evidently intended | confidence | as-written member | corrected member |
|---|---|---|---|---|---|---|
| src/gauges.h:343-345 | `rpmPoints[rpms / 125]` on a 17-entry table | rpm 2130, which the engine reaches at full throttle (375 + 117·15 = 2130), gives index 17 | the last needle point for 2125 rpm and more | not executed | Gauges.RpmIndexOverruns | Gauges.RpmIndex |
| src/gauges.h:229-240 | the search sets the needle point only when an eighth at or past the fuel is found | a tank of 8 gallons (an eighth of 1) holding 9 gallons: no i in 0..8 has i > 9 or i == 9, so the needle is drawn to an unset point | the needle pegged at Full, as the comment at gauges.h:41-42 says | not executed | Gauges.FuelIndexOverfull | Gauges.FuelPoint |
| src/screen.h:84 | x-major step moves a row only when `error_term > xdiff` | Line(0, 0, 2, 1) draws (0,0), (1,0), (2,0) and never reaches (2,1) | `>=`, so the line ends at (x2, y2) as the y-major branch and drawpoly's edges do | not executed | Screen.LineAsWrittenExample | Screen.LineEndsAtEndPoint |
