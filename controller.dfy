/** The main tick state machine of the box: switch rising-edge detection, the
    three-attempt switch-defeat loop, probabilistic reactions to the proximity tier,
    and an inactivity timeout. Random draws and clock readings are inputs. */
module Controller {
  import opened Numerics
  import opened ArmSwitch
  import opened Proximity
  import opened Indicator
  import C = Commands
  import opened BoxFacade

  const PeekabooProbability := 0.05
  const ThreatenProbability := 0.2
  const PeekabooRareProbability := 0.01
  /** Seconds the controller sleeps at the end of every tick. */
  const TickPause := 0.2
  /** Number of extend/retract attempts the switch-defeat loop makes at most. */
  const MaxAttempts := 3

  datatype State = Idle | LidOpen | Teasing | SwitchOff

  /** What the environment supplies during one tick: the two sensor readings, the
      random draws (`threatDraw` is only consulted when `peekDraw` misses), the three
      switch re-reads of the defeat loop, and the clock at the timer reset and at the
      timeout check. */
  datatype Inputs = Inputs(
    switchOn: bool, rawProximity: int,
    peekDraw: real, threatDraw: real, rareDraw: real, delayDraw: real,
    rereads: seq<bool>,
    resetClock: real, checkClock: real)

  /** The arm of the big if/elif chain a tick takes. */
  datatype Branch =
    | SwitchDefeat      // switch rising edge
    | Peekaboo          // very close, idle, first draw hit
    | Threaten          // very close, idle, second draw hit
    | Hesitate          // very close, idle, both draws missed
    | TeaseNear         // close, idle
    | CloseOnFar        // far, not idle
    | CloseOnVeryClose  // very close, not idle
    | RarePeekaboo      // very close, idle again: never taken
    | NoReaction

  /** The branch a tick takes. The switch's rising edge (an unknown last value counts
      as off) wins over every proximity branch, and the rare peek-a-boo is dead: its
      guard needs "very close and idle", which the second branch already took. */
  function Choose(switchOn: bool, lastSwitch: Option<bool>, tier: Tier, state: State,
                  peekDraw: real, threatDraw: real, rareDraw: real): (b: Branch)
    ensures b != RarePeekaboo
    ensures b == SwitchDefeat <==> switchOn && !Truthy(lastSwitch)
    ensures b != SwitchDefeat && tier == VeryClose && state == Idle ==>
      b == (if peekDraw < PeekabooProbability then Peekaboo
            else if threatDraw < ThreatenProbability then Threaten
            else Hesitate)
    ensures b == CloseOnFar <==> !(switchOn && !Truthy(lastSwitch)) && tier == Far && state != Idle
    ensures b == TeaseNear <==> !(switchOn && !Truthy(lastSwitch)) && tier == Close && state == Idle
    ensures b == CloseOnVeryClose <==> !(switchOn && !Truthy(lastSwitch)) && tier == VeryClose && state != Idle
  {
    if switchOn && !Truthy(lastSwitch) then SwitchDefeat
    else if tier == VeryClose && state == Idle then
      if peekDraw < PeekabooProbability then Peekaboo
      else if threatDraw < ThreatenProbability then Threaten
      else Hesitate
    else if tier == Close && state == Idle then TeaseNear
    else if tier == Far && state != Idle then CloseOnFar
    else if tier == VeryClose then
      if state != Idle then CloseOnVeryClose
      else if rareDraw < PeekabooRareProbability then RarePeekaboo
      else NoReaction
    else NoReaction
  }

  /** The state a branch leaves behind once its handler has run: the transient
      switch-off, teasing and pre-peek-a-boo states are always overwritten. */
  function BranchState(b: Branch, state: State): (s: State)
    ensures state == Idle || state == LidOpen ==> s == Idle || s == LidOpen
    ensures b == Threaten ==> s == LidOpen
    ensures b == Hesitate || b == NoReaction ==> s == state
  {
    match b
    case SwitchDefeat => Idle
    case Peekaboo => Idle
    case Threaten => LidOpen
    case Hesitate => state
    case TeaseNear => Idle
    case CloseOnFar => Idle
    case CloseOnVeryClose => Idle
    case RarePeekaboo => Idle
    case NoReaction => state
  }

  /** Whether a branch resets the inactivity timer. */
  predicate ResetsTimer(b: Branch) {
    b in {SwitchDefeat, Peekaboo, Threaten, TeaseNear, CloseOnFar, RarePeekaboo}
  }

  /** The last interaction time after a branch. */
  function TimerAfter(b: Branch, resetClock: real, lastInteraction: real): (t: real)
    ensures ResetsTimer(b) ==> t == resetClock
    ensures !ResetsTimer(b) ==> t == lastInteraction
  {
    if ResetsTimer(b) then resetClock else lastInteraction
  }

  /** The inactivity close fires only on a strictly longer silence than the timeout,
      and only with the lid open. */
  predicate TimesOut(checkClock: real, lastInteraction: real, timeout: real, state: State) {
    checkClock - lastInteraction > timeout && state == LidOpen
  }

  /** The `_random_delay` buckets: short pauses are the common ones. */
  function RandomDelay(u: real): (d: real)
    ensures d in {0.5, 1.0, 1.5, 2.0, 3.0, 5.0}
    ensures u < 0.3 <==> d == 0.5
    ensures 0.95 <= u <==> d == 5.0
  {
    if u < 0.3 then 0.5
    else if u < 0.6 then 1.0
    else if u < 0.8 then 1.5
    else if u < 0.9 then 2.0
    else if u < 0.95 then 3.0
    else 5.0
  }

  /** A larger draw never gives a shorter pause. */
  lemma RandomDelayMonotone(u: real, v: real)
    requires u <= v
    ensures RandomDelay(u) <= RandomDelay(v)
  {
  }

  /** How many extend/retract attempts the defeat loop makes: it stops after the first
      re-read that finds the switch off, and after three attempts in any case. */
  function Attempts(rereads: seq<bool>): (n: nat)
    requires |rereads| == MaxAttempts
    ensures 1 <= n <= MaxAttempts
    ensures forall i :: 0 <= i < n - 1 ==> rereads[i]
    ensures n < MaxAttempts ==> !rereads[n - 1]
    ensures n == MaxAttempts ==> rereads[0] && rereads[1]
  {
    if !rereads[0] then 1 else if !rereads[1] then 2 else 3
  }

  /** Every attempt before the `n`-th found the switch still on. */
  predicate AttemptsSoFar(rereads: seq<bool>, n: nat)
    requires 1 <= n <= |rereads|
  {
    forall i :: 0 <= i < n - 1 ==> rereads[i]
  }

  /** Where the loop stops is where `Attempts` says. */
  lemma AttemptsStop(rereads: seq<bool>, n: nat)
    requires |rereads| == MaxAttempts && 1 <= n <= MaxAttempts
    requires AttemptsSoFar(rereads, n)
    requires n < MaxAttempts ==> !rereads[n - 1]
    ensures n == Attempts(rereads)
  {
  }

  /** One attempt: extend fully, hold, retract fully, re-read the switch. */
  function Round(reading: bool): seq<C.Command> {
    [C.ArmExtend(100.0, 500), C.Wait(0.5), C.ArmRetract(100.0, 500), C.ReadSwitch(reading)]
  }

  /** The first `n` attempts of the defeat loop. */
  function Rounds(rereads: seq<bool>, n: nat): (cmds: seq<C.Command>)
    requires n <= |rereads|
    ensures |cmds| == 4 * n
  {
    if n == 0 then [] else Rounds(rereads, n - 1) + Round(rereads[n - 1])
  }

  lemma RoundExtendsOnce(reading: bool)
    ensures C.Count(Round(reading), C.IsExtend) == 1
  {
    var a := [C.ArmExtend(100.0, 500)];
    var b := a + [C.Wait(0.5)];
    var c := b + [C.ArmRetract(100.0, 500)];
    var d := c + [C.ReadSwitch(reading)];
    assert a[..0] == [] && b[..1] == a && c[..2] == b && d[..3] == c;
    assert C.Count(a, C.IsExtend) == 1;
    assert C.Count(b, C.IsExtend) == 1;
    assert C.Count(c, C.IsExtend) == 1;
    assert d == Round(reading);
  }

  /** Each attempt extends the arm exactly once. */
  lemma {:induction false} RoundsExtendOncePerAttempt(rereads: seq<bool>, n: nat)
    requires n <= |rereads|
    ensures C.Count(Rounds(rereads, n), C.IsExtend) == n
  {
    if n > 0 {
      RoundsExtendOncePerAttempt(rereads, n - 1);
      C.CountAppend(Rounds(rereads, n - 1), Round(rereads[n - 1]), C.IsExtend);
      RoundExtendsOnce(rereads[n - 1]);
    }
  }

  /** The whole `_handle_switch_toggle` sequence. */
  function DefeatCommands(rereads: seq<bool>): seq<C.Command>
    requires |rereads| == MaxAttempts
  {
    [C.LidOpen(100.0, 500), C.Wait(0.5)] + Rounds(rereads, Attempts(rereads)) + [C.LidClose(100.0, 500)]
  }

  /** The defeat sequence extends the arm once per attempt, at most three times, and
      always ends by closing the lid fully. */
  lemma DefeatShape(rereads: seq<bool>)
    requires |rereads| == MaxAttempts
    ensures 1 <= C.Count(DefeatCommands(rereads), C.IsExtend) <= MaxAttempts
    ensures C.Count(DefeatCommands(rereads), C.IsExtend) == Attempts(rereads)
    ensures DefeatCommands(rereads)[|DefeatCommands(rereads)| - 1] == C.LidClose(100.0, 500)
  {
    var n := Attempts(rereads);
    var head := [C.LidOpen(100.0, 500), C.Wait(0.5)];
    var tail := [C.LidClose(100.0, 500)];
    RoundsExtendOncePerAttempt(rereads, n);
    C.CountAppend(head, Rounds(rereads, n), C.IsExtend);
    C.CountAppend(head + Rounds(rereads, n), tail, C.IsExtend);
    assert head[..1] == [C.LidOpen(100.0, 500)];
    assert [C.LidOpen(100.0, 500)][..0] == [];
    assert tail[..0] == [];
  }

  lemma Snoc2<T>(t: seq<T>, a: T, b: T)
    ensures t + [a] + [b] == t + [a, b]
  {
  }

  lemma Snoc3<T>(t: seq<T>, a: T, b: T, c: T)
    ensures t + [a] + [b] + [c] == t + [a, b, c]
  {
  }

  const PeekabooCommands: seq<C.Command> := [C.LidOpen(50.0, 300), C.Wait(0.5), C.LidClose(0.0, 300)]
  const TeaseCommands: seq<C.Command> := [C.LidOpen(30.0, 300), C.Wait(0.3), C.LidClose(0.0, 300)]
  /** `_handle_close_lid`: retract the arm fully, then close the lid fully. */
  const CloseCommands: seq<C.Command> := [C.ArmRetract(100.0, 300), C.LidClose(100.0, 500)]

  /** `_handle_threaten`: open the lid only if it is not already open, then a half
      extension and a half retraction. */
  function ThreatenCommands(lidIsOpen: bool): seq<C.Command> {
    (if lidIsOpen then [] else [C.LidOpen(100.0, 500)])
    + [C.ArmExtend(50.0, 300), C.Wait(0.5), C.ArmRetract(50.0, 300)]
  }

  /** The commands a branch issues between the sensor reads and the timeout check. */
  function Reaction(b: Branch, inp: Inputs, lidIsOpen: bool): seq<C.Command>
    requires |inp.rereads| == MaxAttempts
  {
    match b
    case SwitchDefeat => [C.Wait(RandomDelay(inp.delayDraw))] + DefeatCommands(inp.rereads)
    case Peekaboo => PeekabooCommands
    case Threaten => ThreatenCommands(lidIsOpen)
    case TeaseNear => TeaseCommands
    case CloseOnFar => CloseCommands
    case CloseOnVeryClose => CloseCommands
    case RarePeekaboo => PeekabooCommands
    case Hesitate => []
    case NoReaction => []
  }

  /** The pin levels a branch writes to the LED. */
  function LedWrites(b: Branch, ledOn: bool): seq<int> {
    match b
    case SwitchDefeat => [PinLevel(true), PinLevel(false)]
    case CloseOnFar => [PinLevel(false)]
    case CloseOnVeryClose => [PinLevel(false)]
    case RarePeekaboo => [PinLevel(!ledOn)]
    case _ => []
  }

  class BoxController {
    const box: Box
    const led: Led
    /** Seconds of silence after which an open lid is closed. */
    const inactivityTimeout: real
    var state: State
    var lastProximity: Option<Tier>
    var lastSwitch: Option<bool>
    var lastInteractionTime: real

    /** The parts are consistent: the box replays its trace and the LED's pin matches its flag. */
    ghost predicate Parts()
      reads box, box.lidArm.servo, box.switchArm.servo, led
    {
      box.Valid() && led.Valid()
    }

    /** Between ticks the controller is idle or has the lid open. */
    ghost predicate Valid()
      reads this, box, box.lidArm.servo, box.switchArm.servo, led
    {
      Parts() && (state == Idle || state == LidOpen)
    }

    /** `now` is the clock reading the constructor takes as the last interaction. */
    constructor (now: real, inactivityTimeout: real := 5.0)
      ensures Valid() && fresh(box) && fresh(led)
      ensures box.trace == [] && box.RigOf() == C.DefaultRig
      ensures !led.state && led.pinWrites == []
      ensures state == Idle && lastProximity == None && lastSwitch == None
      ensures lastInteractionTime == now && this.inactivityTimeout == inactivityTimeout
    {
      box := new Box();
      led := new Led();
      state := Idle;
      lastProximity := None;
      lastSwitch := None;
      this.inactivityTimeout := inactivityTimeout;
      lastInteractionTime := now;
    }

    /** Extend the switch arm, hold half a second, retract it by the same percentage. */
    method ExtendHoldRetract(percentage: real, duration: int)
      requires box.Valid()
      modifies box, box.switchArm.servo
      ensures box.Valid()
      ensures box.trace == old(box.trace) + [C.ArmExtend(percentage, duration), C.Wait(0.5), C.ArmRetract(percentage, duration)]
      ensures box.switchArm.servo.currentAngle
              == SwitchAngle(box.switchArm.retractedAngle, box.switchArm.extendedAngle, 100.0 - percentage)
      ensures box.lidArm.servo.currentAngle == old(box.lidArm.servo.currentAngle)
    {
      box.ExtendArm(percentage, duration);
      box.Sleep(0.5);
      box.RetractArm(percentage, duration);
      Snoc3(old(box.trace), C.ArmExtend(percentage, duration), C.Wait(0.5), C.ArmRetract(percentage, duration));
    }

    /** One attempt of the defeat loop: extend fully, hold, retract fully, then report
        whether the switch still reads on. */
    method AttemptSwitchOff(reading: bool) returns (on: bool)
      requires box.Valid()
      modifies box, box.switchArm.servo
      ensures box.Valid() && on == reading
      ensures box.trace == old(box.trace) + Round(reading)
      ensures box.switchArm.servo.currentAngle == box.switchArm.retractedAngle as real
    {
      ExtendHoldRetract(100.0, 500);
      on := box.GetSwitchState(reading);
      C.ConcatAssoc(old(box.trace), [C.ArmExtend(100.0, 500), C.Wait(0.5), C.ArmRetract(100.0, 500)], [C.ReadSwitch(reading)]);
    }

    /** The `for attempt in range(3)` loop with its early `break`: returns how many
        attempts it made. */
    method DefeatLoop(rereads: seq<bool>) returns (attempt: nat)
      requires box.Valid() && |rereads| == MaxAttempts
      modifies box, box.switchArm.servo
      ensures box.Valid() && attempt == Attempts(rereads)
      ensures box.trace == old(box.trace) + Rounds(rereads, attempt)
      ensures box.switchArm.servo.currentAngle == box.switchArm.retractedAngle as real
    {
      attempt := 0;
      var on := true;
      while attempt < MaxAttempts && on
        invariant 0 <= attempt <= MaxAttempts
        invariant attempt == 0 ==> on
        invariant attempt > 0 ==> AttemptsSoFar(rereads, attempt) && on == rereads[attempt - 1]
        invariant box.Valid()
        invariant box.trace == old(box.trace) + Rounds(rereads, attempt)
        invariant attempt > 0 ==> box.switchArm.servo.currentAngle == box.switchArm.retractedAngle as real
      {
        on := AttemptSwitchOff(rereads[attempt]);
        C.ConcatAssoc(old(box.trace), Rounds(rereads, attempt), Round(rereads[attempt]));
        attempt := attempt + 1;
      }
      AttemptsStop(rereads, attempt);
    }

    /** Opens the lid fully, makes up to three extend/retract attempts, stopping at the
        first re-read that finds the switch off; then the lid closes fully, the LED goes
        off and the state is idle. */
    method HandleSwitchToggle(rereads: seq<bool>)
      requires Parts() && |rereads| == MaxAttempts
      modifies this, box, box.lidArm.servo, box.switchArm.servo, led
      ensures Parts() && state == Idle
      ensures box.trace == old(box.trace) + DefeatCommands(rereads)
      ensures !led.state && led.pinWrites == old(led.pinWrites) + [PinLevel(false)]
      ensures lastProximity == old(lastProximity) && lastSwitch == old(lastSwitch)
      ensures lastInteractionTime == old(lastInteractionTime)
      ensures box.lidArm.servo.currentAngle == box.lidArm.closeAngle as real
      ensures box.switchArm.servo.currentAngle == box.switchArm.retractedAngle as real
    {
      ghost var t0 := box.trace;
      ghost var lidUp := [C.LidOpen(100.0, 500), C.Wait(0.5)];
      box.OpenLid(100.0, 500);
      box.Sleep(0.5);
      Snoc2(t0, C.LidOpen(100.0, 500), C.Wait(0.5));
      var attempts := DefeatLoop(rereads);
      C.ConcatAssoc(t0, lidUp, Rounds(rereads, attempts));
      C.ConcatAssoc(t0, lidUp + Rounds(rereads, attempts), [C.LidClose(100.0, 500)]);
      box.CloseLid(100.0, 500);
      led.Off();
      state := Idle;
    }

    method HandlePeekaboo()
      requires Parts()
      modifies this, box, box.lidArm.servo
      ensures Parts() && state == Idle
      ensures box.trace == old(box.trace) + PeekabooCommands
      ensures lastProximity == old(lastProximity) && lastSwitch == old(lastSwitch)
      ensures lastInteractionTime == old(lastInteractionTime)
    {
      box.PlayPeekaboo();
      state := Idle;
    }

    method HandleTease()
      requires Parts()
      modifies this, box, box.lidArm.servo
      ensures Parts() && state == Idle
      ensures box.trace == old(box.trace) + TeaseCommands
      ensures lastProximity == old(lastProximity) && lastSwitch == old(lastSwitch)
      ensures lastInteractionTime == old(lastInteractionTime)
    {
      box.Tease();
      state := Idle;
    }

    /** Opens the lid only when it does not read as open, then extends and retracts the
        arm by half: the arm is left at its half-way angle and the state is lid-open. */
    method HandleThreaten()
      requires Parts()
      modifies this, box, box.lidArm.servo, box.switchArm.servo
      ensures Parts() && state == LidOpen
      ensures box.trace == old(box.trace) + ThreatenCommands(old(box.lidArm.IsOpen()))
      ensures box.switchArm.servo.currentAngle == SwitchAngle(box.switchArm.retractedAngle, box.switchArm.extendedAngle, 50.0)
      ensures lastProximity == old(lastProximity) && lastSwitch == old(lastSwitch)
      ensures lastInteractionTime == old(lastInteractionTime)
    {
      ghost var t0 := box.trace;
      ghost var opening: seq<C.Command> := if box.lidArm.IsOpen() then [] else [C.LidOpen(100.0, 500)];
      if !box.lidArm.IsOpen() {
        box.OpenLid(100.0, 500);
      }
      assert box.trace == t0 + opening;
      ExtendHoldRetract(50.0, 300);
      C.ConcatAssoc(t0, opening, [C.ArmExtend(50.0, 300), C.Wait(0.5), C.ArmRetract(50.0, 300)]);
      state := LidOpen;
    }

    /** Retracts the arm fully, then closes the lid fully, and goes idle. */
    method HandleCloseLid()
      requires Parts()
      modifies this, box, box.lidArm.servo, box.switchArm.servo
      ensures Parts() && state == Idle
      ensures box.trace == old(box.trace) + CloseCommands
      ensures box.lidArm.servo.currentAngle == box.lidArm.closeAngle as real
      ensures box.switchArm.servo.currentAngle == box.switchArm.retractedAngle as real
      ensures lastProximity == old(lastProximity) && lastSwitch == old(lastSwitch)
      ensures lastInteractionTime == old(lastInteractionTime)
    {
      box.RetractArm(100.0, 300);
      box.CloseLid(100.0, 500);
      state := Idle;
    }

    /** The switch's rising edge: LED on, a random pause, the defeat sequence, timer reset. */
    method ReactToSwitch(inp: Inputs)
      requires Parts() && |inp.rereads| == MaxAttempts
      modifies this, box, box.lidArm.servo, box.switchArm.servo, led
      ensures Parts() && state == Idle && lastInteractionTime == inp.resetClock
      ensures box.trace == old(box.trace) + Reaction(SwitchDefeat, inp, old(box.lidArm.IsOpen()))
      ensures led.pinWrites == old(led.pinWrites) + LedWrites(SwitchDefeat, old(led.state))
      ensures lastProximity == old(lastProximity) && lastSwitch == old(lastSwitch)
    {
      state := SwitchOff;
      led.On();
      box.Sleep(RandomDelay(inp.delayDraw));
      HandleSwitchToggle(inp.rereads);
      C.ConcatAssoc(old(box.trace), [C.Wait(RandomDelay(inp.delayDraw))], DefeatCommands(inp.rereads));
      lastInteractionTime := inp.resetClock;
    }

    /** The reaction to very-close proximity while idle: a rare peek-a-boo, else a
        threat with a higher probability, else nothing. */
    method ReactVeryCloseIdle(inp: Inputs)
      requires Parts() && state == Idle && |inp.rereads| == MaxAttempts
      modifies this, box, box.lidArm.servo, box.switchArm.servo
      ensures var b := if inp.peekDraw < PeekabooProbability then Peekaboo
                       else if inp.threatDraw < ThreatenProbability then Threaten
                       else Hesitate;
              && Parts()
              && state == BranchState(b, old(state))
              && lastInteractionTime == TimerAfter(b, inp.resetClock, old(lastInteractionTime))
              && box.trace == old(box.trace) + Reaction(b, inp, old(box.lidArm.IsOpen()))
      ensures lastProximity == old(lastProximity) && lastSwitch == old(lastSwitch)
    {
      if inp.peekDraw < PeekabooProbability {
        state := LidOpen;
        HandlePeekaboo();
        lastInteractionTime := inp.resetClock;
      } else if inp.threatDraw < ThreatenProbability {
        HandleThreaten();
        lastInteractionTime := inp.resetClock;
      }
    }

    /** The remaining arms of the chain, once the switch edge and a very close hand
        at idle are excluded. */
    method ReactToDistance(proximity: Tier, inp: Inputs)
      requires Parts() && (state == Idle || state == LidOpen) && |inp.rereads| == MaxAttempts
      requires !(proximity == VeryClose && state == Idle)
      modifies this, box, box.lidArm.servo, box.switchArm.servo, led
      ensures var b := Choose(false, None, proximity, old(state), 0.0, 0.0, 0.0);
              && Parts()
              && state == BranchState(b, old(state))
              && lastInteractionTime == TimerAfter(b, inp.resetClock, old(lastInteractionTime))
              && box.trace == old(box.trace) + Reaction(b, inp, old(box.lidArm.IsOpen()))
              && led.pinWrites == old(led.pinWrites) + LedWrites(b, old(led.state))
      ensures lastProximity == old(lastProximity) && lastSwitch == old(lastSwitch)
    {
      ghost var b := Choose(false, None, proximity, state, 0.0, 0.0, 0.0);
      if proximity == Close && state == Idle {
        assert b == TeaseNear;
        state := Teasing;
        HandleTease();
        lastInteractionTime := inp.resetClock;
      } else if proximity == Far && state != Idle {
        assert b == CloseOnFar;
        state := Idle;
        led.Off();
        HandleCloseLid();
        lastInteractionTime := inp.resetClock;
      } else if proximity == VeryClose {
        if state != Idle {
          assert b == CloseOnVeryClose;
          HandleCloseLid();
          led.Off();
        } else if inp.rareDraw < PeekabooRareProbability {
          assert false;
        }
      } else {
        assert b == NoReaction;
      }
    }

    /** The if/elif chain of a tick, from the two fresh readings. */
    method React(currentSwitch: bool, proximity: Tier, inp: Inputs)
      requires Valid() && |inp.rereads| == MaxAttempts
      modifies this, box, box.lidArm.servo, box.switchArm.servo, led
      ensures var b := Choose(currentSwitch, old(lastSwitch), proximity, old(state),
                              inp.peekDraw, inp.threatDraw, inp.rareDraw);
              && Parts()
              && state == BranchState(b, old(state))
              && lastInteractionTime == TimerAfter(b, inp.resetClock, old(lastInteractionTime))
              && box.trace == old(box.trace) + Reaction(b, inp, old(box.lidArm.IsOpen()))
              && led.pinWrites == old(led.pinWrites) + LedWrites(b, old(led.state))
      ensures lastProximity == old(lastProximity) && lastSwitch == old(lastSwitch)
    {
      ghost var b := Choose(currentSwitch, lastSwitch, proximity, state, inp.peekDraw, inp.threatDraw, inp.rareDraw);
      if currentSwitch && !Truthy(lastSwitch) {
        assert b == SwitchDefeat;
        ReactToSwitch(inp);
      } else if proximity == VeryClose && state == Idle {
        assert b == (if inp.peekDraw < PeekabooProbability then Peekaboo
                     else if inp.threatDraw < ThreatenProbability then Threaten
                     else Hesitate);
        ReactVeryCloseIdle(inp);
      } else {
        assert b == Choose(false, None, proximity, state, 0.0, 0.0, 0.0);
        ReactToDistance(proximity, inp);
      }
    }

    /** Closes an open lid after a silence strictly longer than the timeout. */
    method CheckInactivity(now: real)
      requires Parts()
      modifies this, box, box.lidArm.servo, box.switchArm.servo
      ensures Parts()
      ensures TimesOut(now, lastInteractionTime, inactivityTimeout, old(state)) ==>
                state == Idle && box.trace == old(box.trace) + CloseCommands
      ensures !TimesOut(now, lastInteractionTime, inactivityTimeout, old(state)) ==>
                state == old(state) && box.trace == old(box.trace)
      ensures lastInteractionTime == old(lastInteractionTime)
      ensures lastProximity == old(lastProximity) && lastSwitch == old(lastSwitch)
    {
      if now - lastInteractionTime > inactivityTimeout {
        if state == LidOpen {
          HandleCloseLid();
        }
      }
    }

    /** Reads the switch, then the proximity sensor. */
    method ReadSensors(inp: Inputs) returns (currentSwitch: bool, proximity: Tier)
      requires box.Valid()
      modifies box
      ensures box.Valid() && currentSwitch == inp.switchOn && proximity == DefaultClassify(inp.rawProximity)
      ensures box.trace == old(box.trace) + [C.ReadSwitch(inp.switchOn), C.ReadProximity(inp.rawProximity)]
    {
      currentSwitch := box.GetSwitchState(inp.switchOn);
      proximity := box.GetProximity(inp.rawProximity);
      Snoc2(old(box.trace), C.ReadSwitch(inp.switchOn), C.ReadProximity(inp.rawProximity));
    }

    /** Remembers this tick's readings and pauses before the next tick. */
    method EndTick(currentSwitch: bool, proximity: Tier)
      requires box.Valid()
      modifies this, box
      ensures box.Valid() && box.trace == old(box.trace) + [C.Wait(TickPause)]
      ensures lastSwitch == Some(currentSwitch) && lastProximity == Some(proximity)
      ensures state == old(state) && lastInteractionTime == old(lastInteractionTime)
    {
      lastSwitch := Some(currentSwitch);
      lastProximity := Some(proximity);
      box.Sleep(TickPause);
    }

    /** One tick: read both sensors, take the branch `Choose` names, check the
        inactivity timeout against the (possibly reset) timer, remember the readings,
        pause. */
    method Update(inp: Inputs)
      requires Valid() && |inp.rereads| == MaxAttempts
      modifies this, box, box.lidArm.servo, box.switchArm.servo, led
      ensures Valid()
      ensures var b := Choose(inp.switchOn, old(lastSwitch), DefaultClassify(inp.rawProximity), old(state),
                              inp.peekDraw, inp.threatDraw, inp.rareDraw);
              var timer := TimerAfter(b, inp.resetClock, old(lastInteractionTime));
              var out := TimesOut(inp.checkClock, timer, inactivityTimeout, BranchState(b, old(state)));
              && state == (if out then Idle else BranchState(b, old(state)))
              && lastInteractionTime == timer
              && box.trace == old(box.trace)
                   + [C.ReadSwitch(inp.switchOn), C.ReadProximity(inp.rawProximity)]
                   + Reaction(b, inp, old(box.lidArm.IsOpen()))
                   + (if out then CloseCommands else [])
                   + [C.Wait(TickPause)]
              && led.pinWrites == old(led.pinWrites) + LedWrites(b, old(led.state))
      ensures lastSwitch == Some(inp.switchOn)
      ensures lastProximity == Some(DefaultClassify(inp.rawProximity))
    {
      var currentSwitch, proximity := ReadSensors(inp);
      React(currentSwitch, proximity, inp);
      CheckInactivity(inp.checkClock);
      EndTick(currentSwitch, proximity);
    }
  }
}
