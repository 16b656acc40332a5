/**
 * The keyboard control interface of src/input.h: the request flags raised
 * by key events and consumed by the control calculations, the stick and
 * rudder accumulators, and the remapping of deflections to -15..15.
 *
 * Polling the keyboard is not part of this model: a call of CheckKeys is
 * handed the keys that are down (or were just pressed) at that moment.
 */
module Input {
  import opened Common
  import opened Aircraft

  /** Amount of stick or rudder motion per call. */
  const STICK_SENS: int := 15
  const RUDDER_SENS: int := 15

  /** The keys CheckKeys looks at. */
  datatype Key =
    | Dump | Left | Right | Up | Down | RudderRightKey | RudderLeftKey
    | PageUp | PageDown | IgnitionKey | F1 | F2 | F3 | F4 | BrakeKey

  /** The order in which CheckKeys tests the keys; only the first one down counts. */
  const KEY_ORDER: seq<Key> :=
    [Dump, Left, Right, Up, Down, RudderRightKey, RudderLeftKey, PageUp, PageDown,
     IgnitionKey, F1, F2, F3, F4, BrakeKey]

  /** The key CheckKeys acts on, searching `order` from its start. */
  function FirstDown(order: seq<Key>, down: set<Key>): (r: Option<Key>)
    ensures r == None <==> forall i :: 0 <= i < |order| ==> order[i] !in down
    ensures r.Some? ==>
              r.value in down &&
              exists i :: 0 <= i < |order| && order[i] == r.value && forall j :: 0 <= j < i ==> order[j] !in down
  {
    if order == [] then None
    else if order[0] in down then
      Some(order[0])
    else
      var rest := FirstDown(order[1..], down);
      if rest.Some? then
        var i :| 0 <= i < |order[1..]| && order[1..][i] == rest.value &&
          forall j :: 0 <= j < i ==> order[1..][j] !in down;
        assert order[i + 1] == rest.value;
        assert forall j :: 0 <= j < i + 1 ==> order[j] !in down by {
          forall j | 0 <= j < i + 1 ensures order[j] !in down {
            if j > 0 { assert order[j] == order[1..][j - 1]; }
          }
        }
        rest
      else
        assert forall i :: 0 <= i < |order| ==> order[i] !in down by {
          forall i | 0 <= i < |order| ensures order[i] !in down {
            if i > 0 { assert order[i] == order[1..][i - 1]; }
          }
        }
        rest
  }

  /** The key CheckKeys acts on when the keys `down` are down. */
  function KeyEvent(down: set<Key>): (r: Option<Key>)
  {
    FirstDown(KEY_ORDER, down)
  }

  /** With a single key down, that key is the event. */
  lemma SingleKeyEvent(k: Key)
    ensures KeyEvent({k}) == Some(k)
  {
    var r := FirstDown(KEY_ORDER, {k});
    assert k in KEY_ORDER;
    assert r.Some?;
  }

  /** The left arrow beats every later key in the chain. */
  lemma LeftBeatsRight()
    ensures KeyEvent({Left, Right, F1}) == Some(Left)
  {
    assert KEY_ORDER[0] == Dump && KEY_ORDER[1] == Left;
  }

  /**
   * One step of a stick or rudder accumulator: a request in the positive
   * direction adds the sensitivity and clamps at 127, one in the negative
   * direction subtracts it and clamps at -128, no request recentres it.
   */
  function StickStep(pos: int, plus: bool, minus: bool, sens: int): (r: int)
    ensures !plus && !minus ==> r == 0
    ensures plus ==> r <= 127 && (r == pos + sens || r == 127)
    ensures !plus && minus ==> r >= -128 && (r == pos - sens || r == -128)
  {
    if plus then
      (if pos + sens > 127 then 127 else pos + sens)
    else if minus then
      (if pos - sens < -128 then -128 else pos - sens)
    else
      0
  }

  /** The accumulator stays inside a signed byte whatever the requests. */
  lemma StickStepInRange(pos: int, plus: bool, minus: bool, sens: int)
    requires -128 <= pos <= 127 && 0 <= sens <= 255
    ensures -128 <= StickStep(pos, plus, minus, sens) <= 127
  {
  }

  /** Holding the positive key for n calls from the centre. */
  function StickHeld(n: nat): int
  {
    if n == 0 then 0 else StickStep(StickHeld(n - 1), true, false, STICK_SENS)
  }

  /** Holding a key drives the stick out by 15 per call until it stops at 127. */
  lemma {:induction false} StickHeldValue(n: nat)
    ensures StickHeld(n) == Min(STICK_SENS * n, 127)
  {
    if n > 0 {
      StickHeldValue(n - 1);
    }
  }

  /**
   * A deflection remapped to -15..15: divided by 7 with C's truncating
   * division, then clamped.
   */
  function Reduce(d: int): (r: int)
    ensures -15 <= r <= 15
    ensures -105 <= d <= 105 ==> r == TruncDiv(d, 7)
    ensures d > 111 ==> r == 15
    ensures d < -111 ==> r == -15
  {
    var q := TruncDiv(d, 7);
    if q > 15 then 15 else if q < -15 then -15 else q
  }

  /** Remapping is symmetric about zero: left and right deflections mirror. */
  lemma ReduceOdd(d: int)
    ensures Reduce(-d) == -Reduce(d)
  {
    assert Abs(TruncDiv(-d, 7)) == Abs(TruncDiv(d, 7));
  }

  /** Small deflections (|d| < 7) vanish, and only those. */
  lemma ReduceZero(d: int)
    ensures Reduce(d) == 0 <==> -7 < d < 7
  {
  }

  /** The request flags of the source, one per control key. */
  datatype Request =
    | AileronLeft | AileronRight | ElevatorUp | ElevatorDown | RudderRight | RudderLeft
    | ThrottleUp | ThrottleDown | IgnitionChange | ViewForward | ViewRight | ViewLeft
    | ViewRear | BrakeTog

  /** The request a key raises; the dump key raises none (its state dump is not modelled). */
  function Raises(k: Key): Option<Request>
  {
    match k
    case Dump => None
    case Left => Some(AileronLeft)
    case Right => Some(AileronRight)
    case Up => Some(ElevatorUp)
    case Down => Some(ElevatorDown)
    case RudderRightKey => Some(RudderRight)
    case RudderLeftKey => Some(RudderLeft)
    case PageUp => Some(ThrottleUp)
    case PageDown => Some(ThrottleDown)
    case IgnitionKey => Some(IgnitionChange)
    case F1 => Some(ViewForward)
    case F2 => Some(ViewRight)
    case F3 => Some(ViewRear)
    case F4 => Some(ViewLeft)
    case BrakeKey => Some(BrakeTog)
  }

  /** Distinct keys raise distinct requests. */
  lemma RaisesInjective(k1: Key, k2: Key)
    requires Raises(k1).Some? && Raises(k1) == Raises(k2)
    ensures k1 == k2
  {
  }

  /** The requests pending after one key event. */
  function Raised(pending: set<Request>, down: set<Key>): set<Request>
  {
    var k := KeyEvent(down);
    if k.Some? && Raises(k.value).Some? then pending + {Raises(k.value).value} else pending
  }

  /** A key event raises at most one request and clears none. */
  lemma RaisedAtMostOne(pending: set<Request>, down: set<Key>)
    ensures pending <= Raised(pending, down)
    ensures |Raised(pending, down) - pending| <= 1
  {
    var k := KeyEvent(down);
    if k.Some? && Raises(k.value).Some? {
      var q := Raises(k.value).value;
      assert Raised(pending, down) - pending <= {q};
    } else {
      assert Raised(pending, down) - pending == {};
    }
  }

  /**
   * A pair of opposing requests consumed by a control calculation: the
   * positive one wins and is cleared; only when it is absent is the
   * negative one cleared.
   */
  function Consume(pending: set<Request>, plus: Request, minus: Request): (r: set<Request>)
    requires plus != minus
    ensures plus !in r && r <= pending
    ensures minus in r <==> minus in pending && plus in pending
    ensures pending - {plus, minus} <= r
  {
    if plus in pending then pending - {plus} else pending - {minus}
  }

  /**
   * What one control pass reads and writes: the pending requests, the three
   * accumulators, and the throttle, toggles and view of the state vector.
   */
  datatype Panel = Panel(pending: set<Request>, stickX: int, stickY: int, rudder: int,
                         throttle: int, ignitionOn: bool, brake: bool, view: int)

  /** Accumulators in a signed byte, the throttle in 0..15, the view one of four. */
  predicate PanelInRange(s: Panel)
  {
    -128 <= s.stickX <= 127 && -128 <= s.stickY <= 127 && -128 <= s.rudder <= 127 &&
    0 <= s.throttle <= 15 && 0 <= s.view <= 3
  }

  /** The stick calculation: both axes step and their requests are consumed. */
  function StickPhase(s: Panel): Panel
  {
    s.(stickX := StickStep(s.stickX, AileronLeft in s.pending, AileronRight in s.pending, STICK_SENS),
       stickY := StickStep(s.stickY, ElevatorUp in s.pending, ElevatorDown in s.pending, STICK_SENS),
       pending := Consume(Consume(s.pending, AileronLeft, AileronRight), ElevatorUp, ElevatorDown))
  }

  /** The standard controls: rudder, throttle and the two toggles. */
  function StndPhase(s: Panel): Panel
  {
    s.(rudder := StickStep(s.rudder, RudderRight in s.pending, RudderLeft in s.pending, RUDDER_SENS),
       throttle := ThrottleStep(s.throttle, ThrottleUp in s.pending, ThrottleDown in s.pending),
       ignitionOn := s.ignitionOn != (IgnitionChange in s.pending),
       brake := s.brake != (BrakeTog in s.pending),
       pending := ThrottleConsumed(Consume(s.pending, RudderRight, RudderLeft), s.throttle)
                  - {IgnitionChange, BrakeTog})
  }

  /** The view controls: the honoured view request sets the view and is cleared. */
  function ViewPhase(s: Panel): Panel
  {
    var v := ViewRequest(s.pending);
    s.(view := if v.Some? then v.value else s.view, pending := s.pending - ViewCleared(s.pending))
  }

  /**
   * One poll of the controls: a key event, then the stick, the standard
   * controls and the view, in the order the source calls them.
   */
  function Poll(s: Panel, down: set<Key>): (r: Panel)
    ensures PanelInRange(s) ==> PanelInRange(r)
    ensures r.pending <= Raised(s.pending, down)
  {
    ViewPhase(StndPhase(StickPhase(s.(pending := Raised(s.pending, down)))))
  }

  /** The four view requests. */
  const VIEWS: set<Request> := {ViewForward, ViewRight, ViewRear, ViewLeft}

  /** The requests a pass can leave behind: a throttle request the throttle's limit blocked. */
  predicate OnlyBlocked(pending: set<Request>)
  {
    pending <= {ThrottleUp, ThrottleDown}
  }

  /**
   * What may be pending between passes: blocked throttle requests and at
   * most one view request (the static initial forward view, or a second
   * view key pressed while it was still pending).
   */
  predicate Leftover(pending: set<Request>)
  {
    pending <= {ThrottleUp, ThrottleDown} + VIEWS &&
    forall v, w :: v in pending && w in pending && v in VIEWS && w in VIEWS ==> v == w
  }

  /** The request a key event raises, if any. */
  function RaisedBy(down: set<Key>): (r: Option<Request>)
    ensures forall pending :: Raised(pending, down) == pending + (if r.Some? then {r.value} else {})
  {
    var k := KeyEvent(down);
    if k.Some? then Raises(k.value) else None
  }

  /**
   * The stick and standard controls consume every request but the throttle
   * and view ones, provided at most one other request (q) is pending;
   * the view requests pass through.
   */
  lemma ControlPhasesConsume(s: Panel, q: Request)
    requires s.pending <= {ThrottleUp, ThrottleDown} + VIEWS + {q}
    ensures StndPhase(StickPhase(s)).pending <= {ThrottleUp, ThrottleDown} + VIEWS
    ensures StndPhase(StickPhase(s)).pending * VIEWS == s.pending * VIEWS
  {
    var s2 := StickPhase(s);
    var s3 := StndPhase(s2);
    assert s2.pending <= s.pending && s3.pending <= s2.pending;
  }

  /**
   * The view phase clears the view request it honours: with at most two
   * view requests pending, at most one is left, and a lone one is cleared.
   */
  lemma ViewPhaseClears(s: Panel, v0: Request, q: Request)
    requires s.pending * VIEWS <= {v0, q}
    ensures var r := ViewPhase(s).pending;
      r - VIEWS == s.pending - VIEWS && r * VIEWS <= s.pending * VIEWS &&
      (forall v, w :: v in r && w in r && v in VIEWS && w in VIEWS ==> v == w) &&
      (s.pending * VIEWS <= {q} ==> r * VIEWS == {})
  {
    var c := ViewCleared(s.pending);
    var r := ViewPhase(s).pending;
    assert r == s.pending - c;
    forall v, w | v in r && w in r && v in VIEWS && w in VIEWS
      ensures v == w
    {
      assert ViewRequest(s.pending).Some?;
      assert c != {};
      var cv :| cv in c;
      assert v in s.pending * VIEWS && w in s.pending * VIEWS && cv in s.pending * VIEWS;
    }
    if s.pending * VIEWS <= {q} && q in s.pending * VIEWS {
      assert ViewRequest(s.pending).Some?;
      assert c == {q};
    }
  }

  /**
   * Every request but a blocked throttle request is consumed in the pass
   * that raises it.
   */
  lemma PollConsumes(s: Panel, down: set<Key>)
    requires OnlyBlocked(s.pending)
    ensures OnlyBlocked(Poll(s, down).pending)
  {
    var q := if RaisedBy(down).Some? then RaisedBy(down).value else ThrottleUp;
    var s1 := s.(pending := Raised(s.pending, down));
    assert s1.pending <= {ThrottleUp, ThrottleDown} + {q};
    ControlPhasesConsume(s1, q);
    ViewPhaseClears(StndPhase(StickPhase(s1)), q, q);
  }

  /**
   * Between passes at most one view request waits, starting from the
   * static initial requests: a pass never lets requests pile up.
   */
  lemma PollLeavesLeftover(s: Panel, down: set<Key>)
    requires Leftover(s.pending)
    ensures Leftover(Poll(s, down).pending)
  {
    var q := if RaisedBy(down).Some? then RaisedBy(down).value else ThrottleUp;
    var v0 := if ViewForward in s.pending then ViewForward else if ViewRight in s.pending then ViewRight
              else if ViewRear in s.pending then ViewRear else ViewLeft;
    var s1 := s.(pending := Raised(s.pending, down));
    assert s1.pending <= {ThrottleUp, ThrottleDown} + VIEWS + {q};
    ControlPhasesConsume(s1, q);
    ViewPhaseClears(StndPhase(StickPhase(s1)), v0, q);
  }

  /** A single key down raises exactly its own request. */
  lemma RaisedSingle(k: Key)
    ensures Raised({}, {k}) == if Raises(k).Some? then {Raises(k).value} else {}
  {
    SingleKeyEvent(k);
    assert RaisedBy({k}) == Raises(k);
  }

  /** The stick phase with no stick request pending: both axes recentre. */
  lemma StickQuiet(s: Panel)
    requires AileronLeft !in s.pending && AileronRight !in s.pending
    requires ElevatorUp !in s.pending && ElevatorDown !in s.pending
    ensures StickPhase(s) == s.(stickX := 0, stickY := 0)
  {
    assert Consume(Consume(s.pending, AileronLeft, AileronRight), ElevatorUp, ElevatorDown) == s.pending;
  }

  /** The standard controls with none of their requests pending: only the rudder recentres. */
  lemma StndQuiet(s: Panel)
    requires RudderRight !in s.pending && RudderLeft !in s.pending
    requires ThrottleUp !in s.pending && ThrottleDown !in s.pending
    requires IgnitionChange !in s.pending && BrakeTog !in s.pending
    ensures StndPhase(s) == s.(rudder := 0)
  {
    assert ThrottleConsumed(Consume(s.pending, RudderRight, RudderLeft), s.throttle) == s.pending;
  }

  /** The view phase with no view request pending changes nothing. */
  lemma ViewQuiet(s: Panel)
    requires ViewForward !in s.pending && ViewRight !in s.pending
    requires ViewRear !in s.pending && ViewLeft !in s.pending
    ensures ViewPhase(s) == s
  {
    assert ViewCleared(s.pending) == {};
  }

  /** With no key down and nothing pending, the stick and rudder recentre and nothing else moves. */
  lemma PollIdle(s: Panel)
    requires s.pending == {}
    ensures Poll(s, {}) == s.(stickX := 0, stickY := 0, rudder := 0)
  {
    assert KeyEvent({}) == None;
    var s1 := s.(pending := Raised(s.pending, {}));
    assert s1 == s;
    StickQuiet(s1);
    StndQuiet(StickPhase(s1));
    ViewQuiet(StndPhase(StickPhase(s1)));
  }

  /** The left arrow alone pushes the stick left; the other axis and the rudder recentre. */
  lemma PollAileronLeft(s: Panel)
    requires s.pending == {}
    ensures Poll(s, {Left}) == s.(stickX := StickStep(s.stickX, true, false, STICK_SENS), stickY := 0, rudder := 0)
  {
    hide Raised;
    RaisedSingle(Left);
    var s1 := s.(pending := Raised(s.pending, {Left}));
    assert s1.pending == {AileronLeft};
    var s2 := StickPhase(s1);
    assert s2.pending == {};
    StndQuiet(s2);
    ViewQuiet(StndPhase(s2));
  }

  /** The standard controls with only throttle-up pending. */
  lemma StndThrottleUp(s: Panel)
    requires s.pending == {ThrottleUp}
    ensures StndPhase(s) == s.(rudder := 0, throttle := ThrottleStep(s.throttle, true, false),
                               pending := if s.throttle < 15 then {} else {ThrottleUp})
  {
    assert Consume(s.pending, RudderRight, RudderLeft) == {ThrottleUp};
  }

  /** Page-up alone opens the throttle one notch, or leaves its request pending at full throttle. */
  lemma PollThrottleUp(s: Panel)
    requires s.pending == {} && 0 <= s.throttle <= 15
    ensures var r := Poll(s, {PageUp});
      r.throttle == (if s.throttle < 15 then s.throttle + 1 else 15) &&
      (r.pending == {} <==> s.throttle < 15) &&
      r == s.(stickX := 0, stickY := 0, rudder := 0, throttle := r.throttle, pending := r.pending)
  {
    hide Raised; hide StickPhase; hide StndPhase; hide ViewPhase;
    RaisedSingle(PageUp);
    var s1 := s.(pending := Raised(s.pending, {PageUp}));
    assert s1.pending == {ThrottleUp};
    StickQuiet(s1);
    var s2 := StickPhase(s1);
    StndThrottleUp(s2);
    var s3 := StndPhase(s2);
    ViewQuiet(s3);
    assert Poll(s, {PageUp}) == s3;
  }

  /** One ignition press changes the ignition and leaves nothing pending. */
  lemma PollIgnition(s: Panel)
    requires s.pending == {}
    ensures Poll(s, {IgnitionKey}) == s.(stickX := 0, stickY := 0, rudder := 0, ignitionOn := !s.ignitionOn)
  {
    hide Raised;
    RaisedSingle(IgnitionKey);
    var s1 := s.(pending := Raised(s.pending, {IgnitionKey}));
    assert s1.pending == {IgnitionChange};
    StickQuiet(s1);
    var s3 := StndPhase(StickPhase(s1));
    assert s3.pending == {};
    ViewQuiet(s3);
  }

  /** Two ignition presses in a row leave the ignition as it was. */
  lemma PollIgnitionTwice(s: Panel)
    requires s.pending == {}
    ensures Poll(Poll(s, {IgnitionKey}), {IgnitionKey}).ignitionOn == s.ignitionOn
  {
    PollIgnition(s);
    PollIgnition(Poll(s, {IgnitionKey}));
  }

  /** A function key alone selects its view and leaves nothing pending. */
  lemma PollView(s: Panel, k: Key)
    requires s.pending == {} && k in {F1, F2, F3, F4}
    ensures Poll(s, {k}).view == (match k case F1 => 0 case F2 => 1 case F3 => 2 case _ => 3)
    ensures Poll(s, {k}).pending == {}
  {
    hide Raised; hide StickPhase; hide StndPhase;
    RaisedSingle(k);
    var s1 := s.(pending := Raised(s.pending, {k}));
    assert s1.pending == {Raises(k).value};
    StickQuiet(s1);
    StndQuiet(StickPhase(s1));
    assert Poll(s, {k}) == ViewPhase(s1.(stickX := 0, stickY := 0, rudder := 0));
  }


  /** The file-scope state of the control interface. */
  class Controls {
    /** The request flags that are set: raised by a key event, cleared when consumed. */
    var pending: set<Request>

    var rudderPos: int
    var stickX: int
    var stickY: int

    /** The accumulators never leave a signed byte. */
    ghost predicate Valid()
      reads this`stickX, this`stickY, this`rudderPos
    {
      -128 <= stickX <= 127 && -128 <= stickY <= 127 && -128 <= rudderPos <= 127
    }

    /** Static initial values: only the forward-view request is pending. */
    constructor ()
      ensures Valid()
      ensures pending == {ViewForward}
      ensures stickX == 0 && stickY == 0 && rudderPos == 0
    {
      pending := {ViewForward};
      rudderPos, stickX, stickY := 0, 0, 0;
    }

    /** One key event: the first key down in the priority chain raises its request. */
    method CheckKeys(down: set<Key>)
      modifies this`pending
      ensures pending == Raised(old(pending), down)
    {
      var k := KeyEvent(down);
      if k.Some? {
        var r := Raises(k.value);
        if r.Some? {
          pending := pending + {r.value};
        }
      }
    }

    /** The stick axes follow the aileron and elevator requests, which are consumed. */
    method CalcKeyControls()
      requires Valid()
      modifies this`stickX, this`stickY, this`pending
      ensures Valid()
      ensures stickX == StickStep(old(stickX), AileronLeft in old(pending), AileronRight in old(pending), STICK_SENS)
      ensures stickY == StickStep(old(stickY), ElevatorUp in old(pending), ElevatorDown in old(pending), STICK_SENS)
      ensures pending == Consume(Consume(old(pending), AileronLeft, AileronRight), ElevatorUp, ElevatorDown)
    {
      StickStepInRange(stickX, AileronLeft in pending, AileronRight in pending, STICK_SENS);
      StickStepInRange(stickY, ElevatorUp in pending, ElevatorDown in pending, STICK_SENS);
      stickX := StickStep(stickX, AileronLeft in pending, AileronRight in pending, STICK_SENS);
      stickY := StickStep(stickY, ElevatorUp in pending, ElevatorDown in pending, STICK_SENS);
      if AileronLeft in pending {
        pending := pending - {AileronLeft};
      } else if AileronRight in pending {
        pending := pending - {AileronRight};
      }
      if ElevatorUp in pending {
        pending := pending - {ElevatorUp};
      } else if ElevatorDown in pending {
        pending := pending - {ElevatorDown};
      }
    }

    /**
     * The controls never mapped to the joystick: rudder, throttle (kept in
     * 0..15; a request that would leave the range stays pending), ignition
     * and brake toggles.
     */
    method CalcStndControls(sv: StateVector)
      requires Valid()
      modifies this`rudderPos, this`pending, sv`throttlePos, sv`ignitionOn, sv`brake
      ensures Valid()
      ensures rudderPos == StickStep(old(rudderPos), RudderRight in old(pending), RudderLeft in old(pending), RUDDER_SENS)
      ensures sv.throttlePos == ThrottleStep(old(sv.throttlePos), ThrottleUp in old(pending), ThrottleDown in old(pending))
      ensures sv.ignitionOn == (old(sv.ignitionOn) != (IgnitionChange in old(pending)))
      ensures sv.brake == (old(sv.brake) != (BrakeTog in old(pending)))
      ensures pending == ThrottleConsumed(Consume(old(pending), RudderRight, RudderLeft), old(sv.throttlePos))
                         - {IgnitionChange, BrakeTog}
    {
      CalcRudder();
      CalcThrottle(sv);
      CalcToggles(sv);
    }

    method CalcRudder()
      requires Valid()
      modifies this`rudderPos, this`pending
      ensures Valid()
      ensures rudderPos == StickStep(old(rudderPos), RudderRight in old(pending), RudderLeft in old(pending), RUDDER_SENS)
      ensures pending == Consume(old(pending), RudderRight, RudderLeft)
    {
      StickStepInRange(rudderPos, RudderRight in pending, RudderLeft in pending, RUDDER_SENS);
      rudderPos := StickStep(rudderPos, RudderRight in pending, RudderLeft in pending, RUDDER_SENS);
      if RudderRight in pending {
        pending := pending - {RudderRight};
      } else if RudderLeft in pending {
        pending := pending - {RudderLeft};
      }
    }

    method CalcThrottle(sv: StateVector)
      modifies this`pending, sv`throttlePos
      ensures sv.throttlePos == ThrottleStep(old(sv.throttlePos), ThrottleUp in old(pending), ThrottleDown in old(pending))
      ensures pending == ThrottleConsumed(old(pending), old(sv.throttlePos))
    {
      if ThrottleUp in pending && sv.throttlePos < 15 {
        sv.throttlePos := sv.throttlePos + 1;
        pending := pending - {ThrottleUp};
      } else if ThrottleDown in pending && sv.throttlePos > 0 {
        sv.throttlePos := sv.throttlePos - 1;
        pending := pending - {ThrottleDown};
      }
    }

    method CalcToggles(sv: StateVector)
      modifies this`pending, sv`ignitionOn, sv`brake
      ensures sv.ignitionOn == (old(sv.ignitionOn) != (IgnitionChange in old(pending)))
      ensures sv.brake == (old(sv.brake) != (BrakeTog in old(pending)))
      ensures pending == old(pending) - {IgnitionChange, BrakeTog}
    {
      if IgnitionChange in pending {
        sv.ignitionOn := !sv.ignitionOn;
        pending := pending - {IgnitionChange};
      }

      if BrakeTog in pending {
        sv.brake := !sv.brake;
        pending := pending - {BrakeTog};
      }
    }

    /** The highest-priority pending view request is honoured and cleared. */
    method CheckViewControls(sv: StateVector)
      modifies this`pending, sv`viewState
      ensures var v := ViewRequest(old(pending));
        (v.Some? ==> sv.viewState == v.value) && (v.None? ==> sv.viewState == old(sv.viewState))
      ensures pending == old(pending) - ViewCleared(old(pending))
    {
      if ViewForward in pending {
        pending := pending - {ViewForward};
        sv.viewState := 0;
      } else if ViewRight in pending {
        pending := pending - {ViewRight};
        sv.viewState := 1;
      } else if ViewRear in pending {
        pending := pending - {ViewRear};
        sv.viewState := 2;
      } else if ViewLeft in pending {
        pending := pending - {ViewLeft};
        sv.viewState := 3;
      }
    }

    /** The three deflections remapped to -15..15. */
    method ReduceIndices(sv: StateVector)
      modifies sv`aileronPos, sv`elevatorPos, sv`rudderPos
      ensures sv.aileronPos == Reduce(old(sv.aileronPos))
      ensures sv.elevatorPos == Reduce(old(sv.elevatorPos))
      ensures sv.rudderPos == Reduce(old(sv.rudderPos))
    {
      sv.aileronPos := Reduce(sv.aileronPos);
      sv.elevatorPos := Reduce(sv.elevatorPos);
      sv.rudderPos := Reduce(sv.rudderPos);
    }

    /** The part of the control state one pass reads and writes. */
    ghost function PanelOf(sv: StateVector): Panel
      reads this`pending, this`stickX, this`stickY, this`rudderPos
      reads sv`throttlePos, sv`ignitionOn, sv`brake, sv`viewState
    {
      Panel(pending, stickX, stickY, rudderPos, sv.throttlePos, sv.ignitionOn, sv.brake, sv.viewState)
    }

    /** The key event and the calculations that consume the requests. */
    method PollControls(sv: StateVector, down: set<Key>)
      requires Valid()
      modifies this`pending, this`stickX, this`stickY, this`rudderPos
      modifies sv`throttlePos, sv`ignitionOn, sv`brake, sv`viewState
      ensures Valid()
      ensures PanelOf(sv) == Poll(old(PanelOf(sv)), down)
      ensures 0 <= old(sv.throttlePos) <= 15 ==> 0 <= sv.throttlePos <= 15
      ensures 0 <= old(sv.viewState) <= 3 ==> 0 <= sv.viewState <= 3
    {
      ghost var s0 := PanelOf(sv);
      CheckKeys(down);
      ghost var s1 := PanelOf(sv);
      assert s1 == s0.(pending := Raised(s0.pending, down));
      CalcKeyControls();
      ghost var s2 := PanelOf(sv);
      assert s2 == StickPhase(s1);
      CalcStndControls(sv);
      ghost var s3 := PanelOf(sv);
      assert s3 == StndPhase(s2);
      CheckViewControls(sv);
      assert PanelOf(sv) == ViewPhase(s3);
    }

    /**
     * One control pass: a key event, then the stick, the standard
     * controls and the view; the state vector receives the remapped axes.
     */
    method GetControls(sv: StateVector, down: set<Key>)
      requires Valid()
      modifies this`pending, this`stickX, this`stickY, this`rudderPos
      modifies sv`aileronPos, sv`elevatorPos, sv`rudderPos, sv`throttlePos, sv`ignitionOn,
               sv`brake, sv`viewState
      ensures Valid()
      ensures PanelOf(sv) == Poll(old(PanelOf(sv)), down)
      ensures sv.aileronPos == Reduce(stickX) && sv.elevatorPos == Reduce(stickY)
      ensures sv.rudderPos == Reduce(rudderPos)
      ensures -15 <= sv.aileronPos <= 15 && -15 <= sv.elevatorPos <= 15 && -15 <= sv.rudderPos <= 15
      ensures 0 <= old(sv.throttlePos) <= 15 ==> 0 <= sv.throttlePos <= 15
      ensures 0 <= old(sv.viewState) <= 3 ==> 0 <= sv.viewState <= 3
    {
      PollControls(sv, down);
      sv.aileronPos := stickX;
      sv.elevatorPos := stickY;
      sv.rudderPos := rudderPos;
      ReduceIndices(sv);
    }
  }

  /**
   * The throttle requests left after a throttle step: the request that
   * moved the throttle is cleared, one that could not move it stays pending.
   */
  function ThrottleConsumed(pending: set<Request>, throttlePos: int): (r: set<Request>)
    ensures r <= pending
    ensures ThrottleUp in r <==> ThrottleUp in pending && throttlePos >= 15
    ensures ThrottleDown in r <==>
      ThrottleDown in pending && ((ThrottleUp in pending && throttlePos < 15) || throttlePos <= 0)
    ensures pending - {ThrottleUp, ThrottleDown} <= r
  {
    if ThrottleUp in pending && throttlePos < 15 then pending - {ThrottleUp}
    else if ThrottleDown in pending && throttlePos > 0 then pending - {ThrottleDown}
    else pending
  }

  /** The throttle: up while below 15, otherwise down while above 0. */
  function ThrottleStep(pos: int, up: bool, down: bool): (r: int)
    ensures 0 <= pos <= 15 ==> 0 <= r <= 15
    ensures r == pos || r == pos + 1 || r == pos - 1
    ensures r == pos + 1 <==> up && pos < 15
    ensures r == pos - 1 <==> !(up && pos < 15) && down && pos > 0
  {
    if up && pos < 15 then pos + 1
    else if down && pos > 0 then pos - 1
    else pos
  }

  /** The view honoured: forward, then right, rear, left. */
  function ViewRequest(pending: set<Request>): (v: Option<int>)
    ensures v.Some? ==> 0 <= v.value <= 3
    ensures v == None <==> ViewForward !in pending && ViewRight !in pending && ViewRear !in pending && ViewLeft !in pending
    ensures v == Some(0) <==> ViewForward in pending
  {
    if ViewForward in pending then Some(0)
    else if ViewRight in pending then Some(1)
    else if ViewRear in pending then Some(2)
    else if ViewLeft in pending then Some(3)
    else None
  }

  /** The one view request that is cleared: the one honoured, if any. */
  function ViewCleared(pending: set<Request>): (r: set<Request>)
    ensures r <= pending * VIEWS && |r| <= 1
    ensures forall x, y :: x in r && y in r ==> x == y
    ensures ViewRequest(pending).Some? <==> |r| == 1
  {
    if ViewForward in pending then {ViewForward}
    else if ViewRight in pending then {ViewRight}
    else if ViewRear in pending then {ViewRear}
    else if ViewLeft in pending then {ViewLeft}
    else {}
  }
}
