/** The older servo driver: an unclamped angle-to-duty map, a duty-stepping smooth
    move, and arms whose moves are instant whatever duration they are given. */
module LegacyServo {
  import opened Numerics
  import ArmLid
  import ArmSwitch

  const Freq := 50
  /** The PWM period in milliseconds. */
  const SpanMs: real := 1000.0 / Freq as real
  /** Duty for a 0.5 ms pulse and for a 2.4 ms pulse, on the 10-bit duty scale. */
  const Low: int := Trunc(0.5 / SpanMs * 1024.0)
  const High: int := Trunc(2.4 / SpanMs * 1024.0)

  /** One thing the driver does to its PWM pin. */
  datatype Pulse = SetDuty(duty: int) | SleepMs(ms: int)

  lemma DutyBoundsAt50Hz()
    ensures Low == 25 && High == 122
  {
    assert 0.5 / SpanMs * 1024.0 == 25.6;
    assert 2.4 / SpanMs * 1024.0 == 122.88;
  }

  /** Linear from `Low` at 0 degrees to `High` at 180 degrees, truncated toward zero,
      with no clamping outside that range. */
  function LegacyDuty(angle: real): (d: int)
    ensures 0.0 <= angle <= 180.0 ==> Low <= d <= High
  {
    DutyBoundsAt50Hz();
    var exact := Low as real + (High - Low) as real * (angle / 180.0);
    assert 0.0 <= angle <= 180.0 ==> 25.0 <= exact <= 122.0;
    Trunc(exact)
  }

  lemma LegacyDutyEnds()
    ensures LegacyDuty(0.0) == 25 && LegacyDuty(180.0) == 122
  {
    DutyBoundsAt50Hz();
    TruncOfInt(25);
    TruncOfInt(122);
  }

  /** Nothing keeps an angle past 180 degrees from giving a duty past `High`. */
  lemma LegacyDutyUnclamped()
    ensures LegacyDuty(360.0) > High
  {
    DutyBoundsAt50Hz();
    TruncOfInt(219);
  }

  lemma LegacyDutyMonotone(a: real, b: real)
    requires a <= b
    ensures LegacyDuty(a) <= LegacyDuty(b)
  {
    DutyBoundsAt50Hz();
    TruncMonotone(25.0 + 97.0 * (a / 180.0), 25.0 + 97.0 * (b / 180.0));
  }

  /** `max(1, int(abs(end - start) / steps))`: never less than one duty unit. */
  function StepSize(startDuty: int, endDuty: int, steps: int): (k: int)
    requires steps != 0
    ensures k >= 1
  {
    var q := Trunc(Abs((endDuty - startDuty) as real) / steps as real);
    if q < 1 then 1 else q
  }

  /** Duty units between two duties. */
  function Distance(startDuty: int, endDuty: int): nat {
    if startDuty <= endDuty then endDuty - startDuty else startDuty - endDuty
  }

  /** With a positive step count a step never exceeds the whole distance (or one unit). */
  lemma StepSizeAtMostDistance(startDuty: int, endDuty: int, steps: int)
    requires steps > 0
    ensures StepSize(startDuty, endDuty, steps) <= if startDuty == endDuty then 1 else Distance(startDuty, endDuty)
  {
    var g := Abs((endDuty - startDuty) as real);
    assert g == Distance(startDuty, endDuty) as real;
    DivAtMost(g, steps as real);
    TruncMonotone(g / steps as real, g);
    TruncOfInt(Distance(startDuty, endDuty));
  }

  lemma DivAtMost(g: real, n: real)
    requires 0.0 <= g && 1.0 <= n
    ensures 0.0 <= g / n <= g
  {
    var q := g / n;
    assert q * n == g;
    MulNonneg(q, n - 1.0);
  }

  /** `1` toward a larger end duty, `-1` otherwise. */
  function Direction(startDuty: int, endDuty: int): (delta: int)
    ensures delta == 1 || delta == -1
    ensures delta == 1 <==> startDuty < endDuty
  {
    if startDuty < endDuty then 1 else -1
  }

  /** The duty after one step: advanced by the step size, snapped to the end when it
      would run past it. */
  function Advance(duty: int, endDuty: int, k: int, delta: int): int {
    var next := duty + k * delta;
    if delta * (endDuty - next) < 0 then endDuty else next
  }

  /** Distance still to go in the direction of travel. */
  function Remaining(duty: int, endDuty: int, delta: int): int {
    delta * (endDuty - duty)
  }

  lemma AdvanceCloser(duty: int, endDuty: int, k: int, delta: int)
    requires k >= 1 && (delta == 1 || delta == -1) && Remaining(duty, endDuty, delta) > 0
    ensures 0 <= Remaining(Advance(duty, endDuty, k, delta), endDuty, delta) < Remaining(duty, endDuty, delta)
    ensures 0 < Remaining(duty, endDuty, delta) - Remaining(Advance(duty, endDuty, k, delta), endDuty, delta)
  {
  }

  /** What the loop writes: each pass sets the current duty and sleeps, until the duty
      reaches the end. */
  function LoopPulses(duty: int, endDuty: int, k: int, delta: int, delay: int): seq<Pulse>
    requires k >= 1 && (delta == 1 || delta == -1)
    decreases if Remaining(duty, endDuty, delta) > 0 then Remaining(duty, endDuty, delta) else 0
  {
    if Remaining(duty, endDuty, delta) > 0 then
      AdvanceCloser(duty, endDuty, k, delta);
      [SetDuty(duty), SleepMs(delay)] + LoopPulses(Advance(duty, endDuty, k, delta), endDuty, k, delta, delay)
    else []
  }

  /** Every duty the loop writes lies from the current duty (inclusive) toward the end
      duty (exclusive), every pause is the step delay, and there are at most as many
      passes as duty units to go. */
  lemma {:induction false} LoopPulsesBetween(duty: int, endDuty: int, k: int, delta: int, delay: int)
    requires k >= 1 && (delta == 1 || delta == -1)
    ensures var r := LoopPulses(duty, endDuty, k, delta, delay);
      && (forall i :: 0 <= i < |r| && r[i].SetDuty? ==>
            0 <= delta * (r[i].duty - duty) && 0 < Remaining(r[i].duty, endDuty, delta))
      && (forall i :: 0 <= i < |r| && r[i].SleepMs? ==> r[i].ms == delay)
      && |r| <= 2 * (if Remaining(duty, endDuty, delta) > 0 then Remaining(duty, endDuty, delta) else 0)
    decreases if Remaining(duty, endDuty, delta) > 0 then Remaining(duty, endDuty, delta) else 0
  {
    if Remaining(duty, endDuty, delta) > 0 {
      var next := Advance(duty, endDuty, k, delta);
      AdvanceCloser(duty, endDuty, k, delta);
      LoopPulsesBetween(next, endDuty, k, delta, delay);
      var rest := LoopPulses(next, endDuty, k, delta, delay);
      var r := [SetDuty(duty), SleepMs(delay)] + rest;
      assert LoopPulses(duty, endDuty, k, delta, delay) == r;
      assert 0 <= delta * (next - duty);
      forall i | 0 <= i < |r| && r[i].SetDuty?
        ensures 0 <= delta * (r[i].duty - duty) && 0 < Remaining(r[i].duty, endDuty, delta)
      {
        if i >= 2 {
          assert r[i] == rest[i - 2];
          assert delta * (r[i].duty - duty) == delta * (r[i].duty - next) + delta * (next - duty);
        }
      }
      forall i | 0 <= i < |r| && r[i].SleepMs?
        ensures r[i].ms == delay
      {
        if i >= 2 {
          assert r[i] == rest[i - 2];
        }
      }
    }
  }

  /** `move_smoothly` as a pulse list: the start duty, the loop, the end duty. */
  function SmoothPulses(startAngle: real, endAngle: real, duration: int, steps: int): (r: seq<Pulse>)
    requires steps != 0
    ensures |r| >= 2 && r[0] == SetDuty(LegacyDuty(startAngle)) && r[|r| - 1] == SetDuty(LegacyDuty(endAngle))
    ensures LegacyDuty(startAngle) == LegacyDuty(endAngle) ==> r == [SetDuty(LegacyDuty(startAngle)), SetDuty(LegacyDuty(endAngle))]
  {
    var s := LegacyDuty(startAngle);
    var e := LegacyDuty(endAngle);
    [SetDuty(s)] + LoopPulses(s, e, StepSize(s, e, steps), Direction(s, e), Trunc(duration as real / steps as real)) + [SetDuty(e)]
  }

  /** Every duty a smooth move writes lies between the start and end duties. */
  lemma SmoothPulsesBetween(startAngle: real, endAngle: real, duration: int, steps: int)
    requires steps != 0
    ensures var s := LegacyDuty(startAngle);
            var e := LegacyDuty(endAngle);
            var r := SmoothPulses(startAngle, endAngle, duration, steps);
            forall i :: 0 <= i < |r| && r[i].SetDuty? ==> Between(s, e, r[i].duty)
  {
    var s := LegacyDuty(startAngle);
    var e := LegacyDuty(endAngle);
    var k := StepSize(s, e, steps);
    var delta := Direction(s, e);
    var delay := Trunc(duration as real / steps as real);
    var loop := LoopPulses(s, e, k, delta, delay);
    LoopPulsesBetween(s, e, k, delta, delay);
    var r := SmoothPulses(startAngle, endAngle, duration, steps);
    assert r == [SetDuty(s)] + loop + [SetDuty(e)];
    forall i | 0 <= i < |r| && r[i].SetDuty?
      ensures Between(s, e, r[i].duty)
    {
      if 0 < i < |r| - 1 {
        assert r[i] == loop[i - 1];
      }
    }
  }

  lemma PassJoin(before: seq<Pulse>, a: Pulse, b: Pulse, rest: seq<Pulse>)
    ensures before + [a] + [b] + rest == before + ([a, b] + rest)
  {
    assert before + [a] + [b] == before + [a, b];
  }

  lemma MoveJoin(before: seq<Pulse>, first: Pulse, loop: seq<Pulse>, last: Pulse)
    ensures before + [first] + loop + [last] == before + ([first] + loop + [last])
  {
  }

  /** The PWM driver: its only state is what it has written to the pin. */
  class Sg90Servo {
    var pulses: seq<Pulse>

    constructor ()
      ensures pulses == []
    {
      pulses := [];
    }

    method MoveToAngle(angle: real)
      modifies this
      ensures pulses == old(pulses) + [SetDuty(LegacyDuty(angle))]
    {
      var duty := LegacyDuty(angle);
      pulses := pulses + [SetDuty(duty)];
    }

    method Sleep(ms: int)
      modifies this
      ensures pulses == old(pulses) + [SleepMs(ms)]
    {
      pulses := pulses + [SleepMs(ms)];
    }

    /** Steps the duty from the start angle's toward the end angle's by at least one
        unit per pass, then writes the end duty. */
    method MoveSmoothly(startAngle: real, endAngle: real, duration: int, steps: int := 50)
      requires steps != 0
      modifies this
      ensures pulses == old(pulses) + SmoothPulses(startAngle, endAngle, duration, steps)
    {
      var startDuty := LegacyDuty(startAngle);
      var endDuty := LegacyDuty(endAngle);
      MoveToAngle(startAngle);
      var delay := Trunc(duration as real / steps as real);
      var stepSize := StepSize(startDuty, endDuty, steps);
      var delta := if startDuty < endDuty then 1 else -1;
      var duty := startDuty;
      ghost var loop := LoopPulses(startDuty, endDuty, stepSize, delta, delay);
      ghost var head := pulses;
      while delta * (endDuty - duty) > 0
        invariant pulses + LoopPulses(duty, endDuty, stepSize, delta, delay) == head + loop
        decreases if Remaining(duty, endDuty, delta) > 0 then Remaining(duty, endDuty, delta) else 0
      {
        ghost var before := pulses;
        ghost var rest := LoopPulses(Advance(duty, endDuty, stepSize, delta), endDuty, stepSize, delta, delay);
        AdvanceCloser(duty, endDuty, stepSize, delta);
        assert LoopPulses(duty, endDuty, stepSize, delta, delay) == [SetDuty(duty), SleepMs(delay)] + rest;
        pulses := pulses + [SetDuty(duty)];
        Sleep(delay);
        PassJoin(before, SetDuty(duty), SleepMs(delay), rest);
        duty := duty + stepSize * delta;
        if delta * (endDuty - duty) < 0 {
          duty := endDuty;
        }
      }
      pulses := pulses + [SetDuty(endDuty)];
      assert head == old(pulses) + [SetDuty(startDuty)];
      MoveJoin(old(pulses), SetDuty(startDuty), loop, SetDuty(endDuty));
    }
  }

  /** The `switch_off` sequence: snap to retracted, wait, sweep smoothly to extended,
      wait, snap back to retracted, wait. */
  function SwitchOffPulses(retractedAngle: int, extendedAngle: int, duration: int,
                           preWait: int, wait: int, postWait: int, steps: int): seq<Pulse>
    requires steps != 0
  {
    [SetDuty(LegacyDuty(retractedAngle as real)), SleepMs(preWait)]
    + SmoothPulses(retractedAngle as real, extendedAngle as real, duration, steps)
    + [SleepMs(wait), SetDuty(LegacyDuty(retractedAngle as real)), SleepMs(postWait)]
  }

  /** `d` lies between `a` and `b`, whichever is larger. */
  predicate Between(a: int, b: int, d: int) {
    (a <= b ==> a <= d <= b) && (b <= a ==> b <= d <= a)
  }

  /** The sweep reaches the extended duty, the last duty written is the retracted one,
      and every duty written lies between the two. */
  lemma SwitchOffShape(retractedAngle: int, extendedAngle: int, duration: int,
                       preWait: int, wait: int, postWait: int, steps: int)
    requires steps != 0
    ensures var r := SwitchOffPulses(retractedAngle, extendedAngle, duration, preWait, wait, postWait, steps);
            var lo := LegacyDuty(retractedAngle as real);
            var hi := LegacyDuty(extendedAngle as real);
            && r[|r| - 2] == SetDuty(lo) && r[|r| - 1] == SleepMs(postWait)
            && r[|r| - 4] == SetDuty(hi)
            && (forall i :: 0 <= i < |r| && r[i].SetDuty? ==> Between(lo, hi, r[i].duty))
  {
    var lo := LegacyDuty(retractedAngle as real);
    var hi := LegacyDuty(extendedAngle as real);
    var sweep := SmoothPulses(retractedAngle as real, extendedAngle as real, duration, steps);
    SmoothPulsesBetween(retractedAngle as real, extendedAngle as real, duration, steps);
    Sandwich(lo, hi, preWait, wait, postWait, sweep);
  }

  /** The shape of a sweep framed by a snap to `lo` before and after. */
  lemma Sandwich(lo: int, hi: int, preWait: int, wait: int, postWait: int, sweep: seq<Pulse>)
    requires |sweep| >= 1 && sweep[|sweep| - 1] == SetDuty(hi)
    requires forall i :: 0 <= i < |sweep| && sweep[i].SetDuty? ==> Between(lo, hi, sweep[i].duty)
    ensures var r := [SetDuty(lo), SleepMs(preWait)] + sweep + [SleepMs(wait), SetDuty(lo), SleepMs(postWait)];
            && r[|r| - 2] == SetDuty(lo) && r[|r| - 1] == SleepMs(postWait)
            && r[|r| - 4] == SetDuty(hi)
            && (forall i :: 0 <= i < |r| && r[i].SetDuty? ==> Between(lo, hi, r[i].duty))
  {
    var tail := [SleepMs(wait), SetDuty(lo), SleepMs(postWait)];
    var r := [SetDuty(lo), SleepMs(preWait)] + sweep + tail;
    assert r[|r| - 4] == sweep[|sweep| - 1];
    forall i | 0 <= i < |r| && r[i].SetDuty?
      ensures Between(lo, hi, r[i].duty)
    {
      if 2 <= i < 2 + |sweep| {
        assert r[i] == sweep[i - 2];
      } else if i >= 2 + |sweep| {
        assert r[i] == tail[i - 2 - |sweep|];
      }
    }
  }

  /** The older switch arm: percentages map linearly onto the two angles, and every
      move is one instant duty write. */
  class SwitchArm {
    const servo: Sg90Servo
    const retractedAngle: int
    const extendedAngle: int

    constructor (retractedAngle: int := 40, extendedAngle: int := 175)
      ensures fresh(servo) && servo.pulses == []
      ensures this.retractedAngle == retractedAngle && this.extendedAngle == extendedAngle
    {
      servo := new Sg90Servo();
      this.retractedAngle := retractedAngle;
      this.extendedAngle := extendedAngle;
    }

    /** `duration` has no effect: the servo jumps to the angle. */
    method Move(percentage: real := 100.0, duration: int := 500)
      modifies servo
      ensures servo.pulses == old(servo.pulses)
                + [SetDuty(LegacyDuty(ArmSwitch.SwitchAngle(retractedAngle, extendedAngle, percentage)))]
    {
      var angle := ArmSwitch.SwitchAngle(retractedAngle, extendedAngle, percentage);
      servo.MoveToAngle(angle);
    }

    /** Retracting by `percentage` is moving to `100 - percentage`. */
    method Retract(percentage: real := 0.0, duration: int := 500)
      modifies servo
      ensures servo.pulses == old(servo.pulses)
                + [SetDuty(LegacyDuty(ArmSwitch.SwitchAngle(retractedAngle, extendedAngle, 100.0 - percentage)))]
    {
      var angle := ArmSwitch.SwitchAngle(retractedAngle, extendedAngle, 100.0 - percentage);
      servo.MoveToAngle(angle);
    }

    method SwitchOff(duration: int := 200, preWait: int := 1000, wait: int := 200, postWait: int := 0, steps: int := 100)
      requires steps != 0
      modifies servo
      ensures servo.pulses == old(servo.pulses)
                + SwitchOffPulses(retractedAngle, extendedAngle, duration, preWait, wait, postWait, steps)
    {
      servo.MoveToAngle(retractedAngle as real);
      servo.Sleep(preWait);
      ghost var beforeSweep := servo.pulses;
      servo.MoveSmoothly(retractedAngle as real, extendedAngle as real, duration, steps);
      ghost var afterSweep := servo.pulses;
      servo.Sleep(wait);
      servo.MoveToAngle(retractedAngle as real);
      servo.Sleep(postWait);
      Snoc3Pulses(afterSweep, SleepMs(wait), SetDuty(LegacyDuty(retractedAngle as real)), SleepMs(postWait));
      assert beforeSweep == old(servo.pulses) + [SetDuty(LegacyDuty(retractedAngle as real)), SleepMs(preWait)];
    }
  }

  lemma Snoc3Pulses(t: seq<Pulse>, a: Pulse, b: Pulse, c: Pulse)
    ensures t + [a] + [b] + [c] == t + [a, b, c]
  {
  }

  /** The older lid arm, closed at 90 and open at 8 degrees by default; moves are instant. */
  class LidArm {
    const servo: Sg90Servo
    const closeAngle: int
    const openAngle: int

    constructor (closeAngle: int := 90, openAngle: int := 8)
      ensures fresh(servo) && servo.pulses == []
      ensures this.closeAngle == closeAngle && this.openAngle == openAngle
    {
      servo := new Sg90Servo();
      this.closeAngle := closeAngle;
      this.openAngle := openAngle;
    }

    /** `duration` has no effect: the servo jumps to the angle. */
    method Open(percentage: real := 100.0, duration: int := 500)
      modifies servo
      ensures servo.pulses == old(servo.pulses)
                + [SetDuty(LegacyDuty(ArmLid.LidAngle(closeAngle, openAngle, percentage)))]
    {
      var angle := ArmLid.LidAngle(closeAngle, openAngle, percentage);
      servo.MoveToAngle(angle);
    }

    /** Closing by `percentage` targets the angle for `100 - percentage` open. */
    method Close(percentage: real := 0.0, duration: int := 500)
      modifies servo
      ensures servo.pulses == old(servo.pulses)
                + [SetDuty(LegacyDuty(ArmLid.LidAngle(closeAngle, openAngle, 100.0 - percentage)))]
    {
      var angle := ArmLid.LidAngle(closeAngle, openAngle, 100.0 - percentage);
      servo.MoveToAngle(angle);
    }
  }

  /** With the default calibrations the maps hit their endpoints exactly, and `close()`
      with its default percentage of 0 sends the lid to the open angle. */
  lemma LegacyArmEndpoints()
    ensures ArmSwitch.SwitchAngle(40, 175, 0.0) == 40.0 && ArmSwitch.SwitchAngle(40, 175, 100.0) == 175.0
    ensures ArmLid.LidAngle(90, 8, 0.0) == 90.0 && ArmLid.LidAngle(90, 8, 100.0) == 8.0
    ensures LegacyDuty(ArmLid.LidAngle(90, 8, 100.0 - 0.0)) == LegacyDuty(8.0)
  {
  }
}
