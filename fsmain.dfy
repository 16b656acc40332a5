/**
 * The main module of the original DOS program: command-line parsing, the
 * staged shutdown driven by the progress counter, the termination report
 * with its exit code, and the ground approach on the global operating mode.
 * Console output, subsystem shutdowns and the process exit are recorded as
 * events in the order the program issues them.
 */
module FsMain {
  import opened Common
  import opened Aircraft
  import opened Fof

  /** Operating modes beyond those the flight model knows. */
  const HELP: int := 3
  const VERSION: int := 4

  /** At most this many command-line parameters are accepted. */
  const MAX_ARGS: int := 1

  /** The program's effects on the outside world. */
  datatype Event =
    | ControlShutDown
    | ViewShutDown
    | AcShutdown
    | SoundShutDown
    | SetVideoMode(mode: int)
    | Report(critical: bool, msg: string, loc: string)
    | FrameRateReport
    | Exit(code: int)
    | ShowCrash
    | SoundCheck
    | AwaitKey

  /** The shutdowns for a given progress counter, in order. */
  function ShutDownEvents(checkpt: int, oldVmode: int): seq<Event>
  {
    (if checkpt >= 1 then [ControlShutDown] else []) +
    (if checkpt >= 2 then [ViewShutDown] else []) +
    (if checkpt >= 3 then [AcShutdown] else []) +
    [SoundShutDown, SetVideoMode(oldVmode)]
  }

  /**
   * Each subsystem is shut down exactly when start-up got past it; sound
   * and the video mode are restored always, and last.
   */
  lemma ShutDownStages(checkpt: int, oldVmode: int)
    ensures var r := ShutDownEvents(checkpt, oldVmode);
      (ControlShutDown in r <==> checkpt >= 1) &&
      (ViewShutDown in r <==> checkpt >= 2) &&
      (AcShutdown in r <==> checkpt >= 3) &&
      |r| >= 2 && r[|r| - 2..] == [SoundShutDown, SetVideoMode(oldVmode)] &&
      FrameRateReport !in r
  {
  }

  /** Start-up is complete once the progress counter reaches four. */
  function ExitCode(checkpt: int): (code: int)
    ensures code == 0 <==> checkpt >= 4
    ensures code == 0 || code == 1
  {
    if checkpt < 4 then 1 else 0
  }

  /** What a termination issues, in order. */
  function TerminateEvents(checkpt: int, oldVmode: int, mode: int, msg: string, loc: string): seq<Event>
  {
    ShutDownEvents(checkpt, oldVmode) + [Report(checkpt < 4, msg, loc)] +
    (if mode != DEBUG then [FrameRateReport] else []) + [Exit(ExitCode(checkpt))]
  }

  /**
   * A termination shuts down first, then reports, critically unless
   * start-up completed, reports the frame rate only outside debug mode,
   * and exits last.
   */
  lemma TerminateOrder(checkpt: int, oldVmode: int, mode: int, msg: string, loc: string)
    ensures var r := TerminateEvents(checkpt, oldVmode, mode, msg, loc);
      var n := |ShutDownEvents(checkpt, oldVmode)|;
      |r| > n + 1 && r[..n] == ShutDownEvents(checkpt, oldVmode) &&
      r[n] == Report(checkpt < 4, msg, loc) && r[|r| - 1] == Exit(ExitCode(checkpt)) &&
      (FrameRateReport in r <==> mode != DEBUG)
  {
  }

  /** The outcome of parsing the command line. */
  datatype Parse = Mode(mode: int) | Rejected(mode: int, msg: string)

  /** The mode a parameter selects, judged by its first character alone. */
  function ModeOfArg(arg: string): (m: Option<int>)
    ensures m == Some(DEBUG) <==> |arg| > 0 && (arg[0] == 'd' || arg[0] == 'D')
    ensures m == Some(HELP) <==> |arg| > 0 && (arg[0] == '?' || arg[0] == 'h' || arg[0] == 'H')
    ensures m == Some(WALK) <==> |arg| > 0 && (arg[0] == 'w' || arg[0] == 'W')
    ensures m == Some(VERSION) <==> |arg| > 0 && (arg[0] == 'v' || arg[0] == 'V')
    ensures m.Some? ==> m.value in {DEBUG, HELP, WALK, VERSION}
  {
    // an empty parameter starts with the terminating NUL, which no case accepts
    var c := if |arg| == 0 then '\0' else arg[0];
    if c == 'd' || c == 'D' then Some(DEBUG)
    else if c == '?' then Some(HELP)
    else if c == 'h' || c == 'H' then Some(HELP)
    else if c == 'w' || c == 'W' then Some(WALK)
    else if c == 'v' || c == 'V' then Some(VERSION)
    else None
  }

  /** The parameters from index i on, each overriding the mode, the first bad one rejected. */
  function ParseArgs(mode: int, argv: seq<string>, i: nat): Parse
    decreases |argv| - i
  {
    if i >= |argv| then Mode(mode)
    else match ModeOfArg(argv[i])
      case None => Rejected(mode, "invalid command line parameter")
      case Some(m) => ParseArgs(m, argv, i + 1)
  }

  /**
   * The whole command line, program name included: too many parameters
   * are rejected outright, no parameter leaves the mode alone, and a
   * single one decides the mode by its first character.
   */
  function ParseOf(mode: int, argv: seq<string>): (r: Parse)
    ensures |argv| > MAX_ARGS + 1 ==> r == Rejected(mode, "extra command line parameter")
    ensures |argv| <= 1 ==> r == Mode(mode)
  {
    if |argv| <= MAX_ARGS + 1 then ParseArgs(mode, argv, 1)
    else Rejected(mode, "extra command line parameter")
  }

  /** A single parameter decides the mode by its first character, or is rejected. */
  lemma ParseSingle(mode: int, argv: seq<string>)
    requires |argv| == 2
    ensures ParseOf(mode, argv) == match ModeOfArg(argv[1])
      case None => Rejected(mode, "invalid command line parameter")
      case Some(m) => Mode(m)
  {
    match ModeOfArg(argv[1])
    case None =>
    case Some(m) =>
      assert ParseArgs(m, argv, 2) == Mode(m);
  }

  /** A parse that succeeds keeps the mode it started with or selects one of the four named ones. */
  lemma {:induction false} ParsedModeKnown(mode: int, argv: seq<string>, i: nat)
    ensures ParseArgs(mode, argv, i).Mode? ==>
      ParseArgs(mode, argv, i).mode in {mode, DEBUG, HELP, WALK, VERSION}
    ensures ParseArgs(mode, argv, i).Rejected? ==>
      ParseArgs(mode, argv, i).mode in {mode, DEBUG, HELP, WALK, VERSION}
    decreases |argv| - i
  {
    if i < |argv| {
      match ModeOfArg(argv[i])
      case None =>
      case Some(m) =>
        ParsedModeKnown(m, argv, i + 1);
    }
  }

  /** The program's globals. */
  class Program {
    var opMode: int
    var checkpt: int
    var oldVmode: int
    var output: seq<Event>

    /** Static storage: the mode and the progress counter start at zero. */
    constructor (oldVmode: int)
      ensures opMode == DEBUG && checkpt == 0 && this.oldVmode == oldVmode && output == []
    {
      opMode, checkpt := DEBUG, 0;
      this.oldVmode := oldVmode;
      output := [];
    }

    /** Shut down what start-up brought up, as the progress counter tells. */
    method ShutDown()
      modifies this`output
      ensures output == old(output) + ShutDownEvents(checkpt, oldVmode)
    {
      if checkpt >= 1 {
        output := output + [ControlShutDown];
      }
      if checkpt >= 2 {
        output := output + [ViewShutDown];
      }
      if checkpt >= 3 {
        output := output + [AcShutdown];
      }
      output := output + [SoundShutDown];
      output := output + [SetVideoMode(oldVmode)];
    }

    /**
     * Shut down and report: a termination before start-up completed is
     * a critical error with exit code 1, a normal one exits with 0.
     */
    method Terminate(msg: string, loc: string) returns (code: int)
      modifies this`output
      ensures code == ExitCode(checkpt)
      ensures output == old(output) + TerminateEvents(checkpt, oldVmode, opMode, msg, loc)
    {
      ShutDown();
      if checkpt < 4 {
        output := output + [Report(true, msg, loc)];
        code := 1;
      } else {
        output := output + [Report(false, msg, loc)];
        code := 0;
      }
      if opMode != DEBUG {
        output := output + [FrameRateReport];
      }
      output := output + [Exit(code)];
    }

    /**
     * Set the operating mode from the command line; a rejected command
     * line terminates the program, whose exit code is returned.
     */
    method ParseCLP(argv: seq<string>) returns (exit: Option<int>)
      modifies this`opMode, this`output
      ensures match ParseOf(old(opMode), argv)
        case Mode(m) => exit == None && opMode == m && output == old(output)
        case Rejected(m, msg) =>
          opMode == m && exit == Some(ExitCode(checkpt)) &&
          output == old(output) + TerminateEvents(checkpt, oldVmode, m, msg, "ParseCLP()")
    {
      exit := None;
      if |argv| <= MAX_ARGS + 1 {
        var i := 1;
        while i < |argv|
          invariant 1 <= i
          invariant ParseArgs(opMode, argv, i) == ParseOf(old(opMode), argv)
          invariant output == old(output)
          decreases |argv| - i
        {
          var c := if |argv[i]| == 0 then '\0' else argv[i][0];
          if c == 'd' || c == 'D' {
            opMode := DEBUG;
          } else if c == '?' {
            opMode := HELP;
          } else if c == 'h' || c == 'H' {
            opMode := HELP;
          } else if c == 'w' || c == 'W' {
            opMode := WALK;
          } else if c == 'v' || c == 'V' {
            opMode := VERSION;
          } else {
            var code := Terminate("invalid command line parameter", "ParseCLP()");
            return Some(code);
          }
          i := i + 1;
        }
      } else {
        var code := Terminate("extra command line parameter", "ParseCLP()");
        exit := Some(code);
      }
    }

    /**
     * The ground check on the global operating mode; a crash is shown,
     * the sound updated and a key awaited before flight resumes.
     */
    method GroundApproach(fm: FlightModel, sv: StateVector) returns (a: Approach)
      modifies sv, fm`dPitch, fm`dYaw, fm`dRoll, this`output
      ensures a == ApproachOf(opMode, old(sv.airborne), old(sv.altitude), old(sv.pitch), old(sv.roll))
      ensures output == old(output) + if a == Crashed then [ShowCrash, SoundCheck, AwaitKey] else []
      ensures a == NoContact ==> unchanged(sv) && unchanged(fm`dPitch, fm`dYaw, fm`dRoll)
      ensures a == Crashed ==> sv.IsStartState()
      ensures a == Landed ==>
        !sv.airborne && sv.pitch == 0.0 && sv.roll == 0.0 && sv.yPos == SEA_LVL_Y &&
        unchanged(sv`opMode, sv`xPos, sv`zPos, sv`yaw, sv`altitude, sv`hSpeed, sv`viewState)
      ensures a != NoContact ==> !sv.airborne && fm.dPitch == 0.0 && fm.dYaw == 0.0 && fm.dRoll == 0.0
      ensures ApproachOf(opMode, sv.airborne, sv.altitude, sv.pitch, sv.roll) == NoContact
    {
      a := GroundCheck(fm, sv, opMode);
      if a == Crashed {
        output := output + [ShowCrash, SoundCheck, AwaitKey];
      }
    }
  }
}
