/** The SG90 hobby servo driven by a 50 Hz PWM pin: the motion engine under both arms. */
module Sg90 {
  import opened Numerics

  const PwmFreq := 50
  /** Duty value for 0 degrees (about 5% of the period). */
  const MinDuty := 26
  /** Duty value for 180 degrees (about 10% of the period). */
  const MaxDuty := 123
  /** Milliseconds an instant move waits for the horn to arrive. */
  const SettleMs := 250

  /** One value written to the PWM duty register, and the pause that follows it. */
  datatype DutyWrite = DutyWrite(duty: int, pauseMs: int)

  /** Clamp-and-interpolate from degrees to a duty value. */
  function AngleToDuty(angle: real): (d: int)
    ensures MinDuty <= d <= MaxDuty
    ensures angle <= 0.0 ==> d == MinDuty
    ensures angle >= 180.0 ==> d == MaxDuty
  {
    if angle <= 0.0 then MinDuty
    else if angle >= 180.0 then MaxDuty
    else
      var x := MinDuty as real + (angle / 180.0) * (MaxDuty - MinDuty) as real;
      assert (angle / 180.0) * 97.0 <= 97.0;
      Trunc(x)
  }

  /** A larger angle never gives a smaller duty. */
  lemma AngleToDutyMonotone(a: real, b: real)
    requires a <= b
    ensures AngleToDuty(a) <= AngleToDuty(b)
  {
    if 0.0 < a && b < 180.0 {
      assert (a / 180.0) * 97.0 <= (b / 180.0) * 97.0;
      TruncMonotone(26.0 + (a / 180.0) * 97.0, 26.0 + (b / 180.0) * 97.0);
    } else if 0.0 < a && a < 180.0 {
      TruncMonotone(26.0 + (a / 180.0) * 97.0, 123.0);
    } else if 0.0 < b && b < 180.0 {
      TruncMonotone(26.0, 26.0 + (b / 180.0) * 97.0);
    }
  }

  /** The exact position of interpolation step `i`, before truncation. */
  function Interp(startDuty: int, endDuty: int, steps: int, i: int): real
    requires steps > 0
  {
    startDuty as real + i as real * ((endDuty - startDuty) as real / steps as real)
  }

  /** The duty written at interpolation step `i` of a smooth move. */
  function SmoothDuty(startDuty: int, endDuty: int, steps: int, i: int): int
    requires steps > 0
  {
    Trunc(Interp(startDuty, endDuty, steps, i))
  }

  /** The move's share of the full-range duration, proportional to the distance travelled. */
  function MoveDuration(distance: real, durationFullRange: int): real {
    (distance / 180.0) * durationFullRange as real
  }

  /** Pause after each interpolation step: the move's duration split over the steps. */
  function StepDelay(distance: real, durationFullRange: int, steps: int): int
    requires steps > 0
  {
    Trunc(MoveDuration(distance, durationFullRange) / steps as real)
  }

  /** The first `k` writes of a smooth move, in the order the loop issues them. */
  function SmoothPrefix(startDuty: int, endDuty: int, steps: int, delay: int, k: nat): (w: seq<DutyWrite>)
    requires steps > 0
    ensures |w| == k
  {
    if k == 0 then []
    else SmoothPrefix(startDuty, endDuty, steps, delay, k - 1) + [DutyWrite(SmoothDuty(startDuty, endDuty, steps, k - 1), delay)]
  }

  /** The writes of a smooth move: steps + 1 interpolated duties with equal pauses. */
  function SmoothWrites(startDuty: int, endDuty: int, steps: int, delay: int): (w: seq<DutyWrite>)
    requires steps > 0
    ensures |w| == steps + 1
  {
    SmoothPrefix(startDuty, endDuty, steps, delay, steps + 1)
  }

  /** Write number `i` of a smooth move is interpolation step `i`, followed by the common pause. */
  lemma {:induction false} SmoothPrefixAt(startDuty: int, endDuty: int, steps: int, delay: int, k: nat, i: nat)
    requires steps > 0 && i < k
    ensures SmoothPrefix(startDuty, endDuty, steps, delay, k)[i] == DutyWrite(SmoothDuty(startDuty, endDuty, steps, i), delay)
  {
    if i < k - 1 {
      SmoothPrefixAt(startDuty, endDuty, steps, delay, k - 1, i);
    }
  }

  /** The writes of a smooth move between two angles, as `move_smoothly` computes them. */
  function SmoothMove(fromAngle: real, toAngle: real, durationFullRange: int, steps: int): (w: seq<DutyWrite>)
    requires steps > 0
    ensures |w| == steps + 1
  {
    SmoothWrites(AngleToDuty(fromAngle), AngleToDuty(toAngle), steps, StepDelay(Abs(toAngle - fromAngle), durationFullRange, steps))
  }

  /** The first write is the start duty and the last is exactly the end duty. */
  lemma SmoothWritesEnds(startDuty: int, endDuty: int, steps: int, delay: int)
    requires steps > 0
    ensures SmoothWrites(startDuty, endDuty, steps, delay)[0].duty == startDuty
    ensures SmoothWrites(startDuty, endDuty, steps, delay)[steps].duty == endDuty
  {
    SmoothPrefixAt(startDuty, endDuty, steps, delay, steps + 1, 0);
    SmoothPrefixAt(startDuty, endDuty, steps, delay, steps + 1, steps);
    var q := (endDuty - startDuty) as real / steps as real;
    assert steps as real * q == (endDuty - startDuty) as real;
    assert Interp(startDuty, endDuty, steps, 0) == startDuty as real;
    assert Interp(startDuty, endDuty, steps, steps) == endDuty as real;
    TruncOfInt(startDuty);
    TruncOfInt(endDuty);
  }

  /** Rising interpolation: step `i` lies between the start and step `j`, which lies below the end. */
  lemma InterpolationRising(startDuty: int, endDuty: int, steps: int, i: int, j: int)
    requires steps > 0 && 0 <= i <= j <= steps && startDuty <= endDuty
    ensures startDuty as real <= Interp(startDuty, endDuty, steps, i) <= Interp(startDuty, endDuty, steps, j) <= endDuty as real
  {
    var q := (endDuty - startDuty) as real / steps as real;
    assert steps as real * q == (endDuty - startDuty) as real;
    var d := (j - i) as real;
    var rest := (steps - j) as real;
    assert i as real * q + d * q + rest * q == steps as real * q;
    assert q >= 0.0;
    assert i as real * q >= 0.0 && d * q >= 0.0 && rest * q >= 0.0;
  }

  lemma TruncBetween(lo: int, x: real, y: real, hi: int)
    requires lo as real <= x <= y <= hi as real
    ensures lo <= Trunc(x) <= Trunc(y) <= hi
  {
    TruncMonotone(lo as real, x);
    TruncMonotone(x, y);
    TruncMonotone(y, hi as real);
    TruncOfInt(lo);
    TruncOfInt(hi);
  }

  lemma SmoothDutyMirror(startDuty: int, endDuty: int, steps: int, i: int)
    requires steps > 0
    ensures SmoothDuty(-startDuty, -endDuty, steps, i) == -SmoothDuty(startDuty, endDuty, steps, i)
  {
    var x := Interp(startDuty, endDuty, steps, i);
    assert Interp(-startDuty, -endDuty, steps, i) == -x;
    TruncOdd(x);
  }

  lemma SmoothDutyRising(startDuty: int, endDuty: int, steps: int, i: int, j: int)
    requires steps > 0 && 0 <= i <= j <= steps && startDuty <= endDuty
    ensures startDuty <= SmoothDuty(startDuty, endDuty, steps, i) <= SmoothDuty(startDuty, endDuty, steps, j) <= endDuty
  {
    InterpolationRising(startDuty, endDuty, steps, i, j);
    TruncBetween(startDuty, Interp(startDuty, endDuty, steps, i), Interp(startDuty, endDuty, steps, j), endDuty);
  }

  lemma SmoothDutyFalling(startDuty: int, endDuty: int, steps: int, i: int, j: int)
    requires steps > 0 && 0 <= i <= j <= steps && endDuty <= startDuty
    ensures startDuty >= SmoothDuty(startDuty, endDuty, steps, i) >= SmoothDuty(startDuty, endDuty, steps, j) >= endDuty
  {
    SmoothDutyRising(-startDuty, -endDuty, steps, i, j);
    SmoothDutyMirror(startDuty, endDuty, steps, i);
    SmoothDutyMirror(startDuty, endDuty, steps, j);
  }

  /** Interpolated duties run monotonically from the start duty to the end duty. */
  lemma SmoothDutyMonotone(startDuty: int, endDuty: int, steps: int, i: int, j: int)
    requires steps > 0 && 0 <= i <= j <= steps
    ensures startDuty <= endDuty ==>
      startDuty <= SmoothDuty(startDuty, endDuty, steps, i) <= SmoothDuty(startDuty, endDuty, steps, j) <= endDuty
    ensures endDuty <= startDuty ==>
      startDuty >= SmoothDuty(startDuty, endDuty, steps, i) >= SmoothDuty(startDuty, endDuty, steps, j) >= endDuty
  {
    if startDuty <= endDuty {
      SmoothDutyRising(startDuty, endDuty, steps, i, j);
    }
    if endDuty <= startDuty {
      SmoothDutyFalling(startDuty, endDuty, steps, i, j);
    }
  }

  /** The written duties of a smooth move are monotone and never leave the range
      between the start and end duties. */
  lemma SmoothWritesMonotone(startDuty: int, endDuty: int, steps: int, delay: int, i: int, j: int)
    requires steps > 0 && 0 <= i <= j <= steps
    ensures var w := SmoothWrites(startDuty, endDuty, steps, delay);
      startDuty <= endDuty ==> startDuty <= w[i].duty <= w[j].duty <= endDuty
    ensures var w := SmoothWrites(startDuty, endDuty, steps, delay);
      endDuty <= startDuty ==> startDuty >= w[i].duty >= w[j].duty >= endDuty
  {
    SmoothPrefixAt(startDuty, endDuty, steps, delay, steps + 1, i);
    SmoothPrefixAt(startDuty, endDuty, steps, delay, steps + 1, j);
    SmoothDutyMonotone(startDuty, endDuty, steps, i, j);
  }

  /** Dividing by a positive number keeps the order. */
  lemma DivMonotone(a: real, b: real, c: real)
    requires a <= b && c > 0.0
    ensures a / c <= b / c
  {
  }

  lemma MulMonotone(a: real, b: real, c: real)
    requires a <= b && 0.0 <= c
    ensures a * c <= b * c
  {
    assert (b - a) * c >= 0.0;
  }

  /** The move's duration is proportional to its distance: a full 180-degree move takes the
      full-range duration, the durations of two distances add up to that of their sum, and
      the share per step never shrinks as the distance grows. */
  lemma DurationOrdered(d1: real, d2: real, durationFullRange: int, steps: int)
    requires steps > 0 && 0.0 <= d1 <= d2 && 0 <= durationFullRange
    ensures 0.0 == MoveDuration(0.0, durationFullRange)
    ensures MoveDuration(180.0, durationFullRange) == durationFullRange as real
    ensures MoveDuration(d1 + d2, durationFullRange) == MoveDuration(d1, durationFullRange) + MoveDuration(d2, durationFullRange)
    ensures 0.0 <= MoveDuration(d1, durationFullRange) / steps as real <= MoveDuration(d2, durationFullRange) / steps as real
  {
    var f := durationFullRange as real;
    DivMonotone(0.0, d1, 180.0);
    DivMonotone(d1, d2, 180.0);
    MulMonotone(0.0, d1 / 180.0, f);
    MulMonotone(d1 / 180.0, d2 / 180.0, f);
    DivMonotone(0.0, MoveDuration(d1, durationFullRange), steps as real);
    DivMonotone(MoveDuration(d1, durationFullRange), MoveDuration(d2, durationFullRange), steps as real);
  }

  /** The per-step pause is the move's duration split over the steps, truncated to whole
      milliseconds: zero for a zero-distance move, never less for a longer move, and within
      one millisecond below the exact share of the distance-proportional duration. */
  lemma StepDelayProportional(d1: real, d2: real, durationFullRange: int, steps: int)
    requires steps > 0 && 0.0 <= d1 <= d2 && durationFullRange >= 0
    ensures StepDelay(0.0, durationFullRange, steps) == 0
    ensures 0 <= StepDelay(d1, durationFullRange, steps) <= StepDelay(d2, durationFullRange, steps)
    ensures StepDelay(d1, durationFullRange, steps) as real <= MoveDuration(d1, durationFullRange) / steps as real
            < (StepDelay(d1, durationFullRange, steps) + 1) as real
  {
    DurationOrdered(d1, d2, durationFullRange, steps);
    TruncNonnegMonotone(MoveDuration(d1, durationFullRange) / steps as real, MoveDuration(d2, durationFullRange) / steps as real);
    TruncOfInt(0);
  }

  class Servo {
    /** Angle the servo starts at and snaps back to on reset. */
    const defaultAngle: real
    /** Angle the servo was last commanded to. */
    var currentAngle: real
    /** Every duty written to the PWM pin, oldest first. */
    var log: seq<DutyWrite>

    /** Sets the current angle to the default, then issues the (guarded) move to it:
        nothing is written when the default is already a two-decimal value. */
    constructor (defaultAngle: real := 0.0)
      ensures this.defaultAngle == defaultAngle
      ensures currentAngle == Round2(defaultAngle)
      ensures log == if Round2(defaultAngle) == defaultAngle then []
                     else [DutyWrite(AngleToDuty(Round2(defaultAngle)), SettleMs)]
    {
      this.defaultAngle := defaultAngle;
      currentAngle := defaultAngle;
      log := [];
      new;
      MoveToAngle(defaultAngle);
    }

    /** Instant move. The target is rounded to two decimals; unless forced, a target
        equal to the current angle writes nothing. */
    method MoveToAngle(angle: real, force: bool := false)
      modifies this
      ensures !force && Round2(angle) == old(currentAngle) ==>
        currentAngle == old(currentAngle) && log == old(log)
      ensures force || Round2(angle) != old(currentAngle) ==>
        currentAngle == Round2(angle) && log == old(log) + [DutyWrite(AngleToDuty(Round2(angle)), SettleMs)]
    {
      var a := Round2(angle);
      if !force && a == currentAngle {
        return;
      }
      var dutyValue := AngleToDuty(a);
      log := log + [DutyWrite(dutyValue, SettleMs)];
      currentAngle := a;
    }

    /** Smooth move: steps + 1 interpolated duty writes from the current angle's duty
        to the target's, pausing a distance-proportional delay after each one. */
    method MoveSmoothly(targetAngle: real, durationFullRange: int := 1000, steps: int := 50)
      requires steps > 0
      modifies this
      ensures currentAngle == targetAngle
      ensures log == old(log) + SmoothMove(old(currentAngle), targetAngle, durationFullRange, steps)
    {
      var startAngle := currentAngle;
      var angleDifference := Abs(targetAngle - startAngle);
      var startDuty := AngleToDuty(startAngle);
      var endDuty := AngleToDuty(targetAngle);
      var delay := StepDelay(angleDifference, durationFullRange, steps);
      WriteInterpolated(startDuty, endDuty, steps, delay);
      currentAngle := targetAngle;
    }

    /** The `for` loop of a smooth move: one write per interpolation step. */
    method WriteInterpolated(startDuty: int, endDuty: int, steps: int, delay: int)
      requires steps > 0
      modifies this
      ensures currentAngle == old(currentAngle)
      ensures log == old(log) + SmoothWrites(startDuty, endDuty, steps, delay)
    {
      var stepSize := (endDuty - startDuty) as real / steps as real;
      for step := 0 to steps + 1
        invariant currentAngle == old(currentAngle)
        invariant log == old(log) + SmoothPrefix(startDuty, endDuty, steps, delay, step)
      {
        assert startDuty as real + step as real * stepSize == Interp(startDuty, endDuty, steps, step);
        var dutyValue := Trunc(startDuty as real + step as real * stepSize);
        assert SmoothPrefix(startDuty, endDuty, steps, delay, step + 1)
            == SmoothPrefix(startDuty, endDuty, steps, delay, step) + [DutyWrite(dutyValue, delay)];
        log := log + [DutyWrite(dutyValue, delay)];
      }
    }

    /** Forced instant move back to the default angle: always exactly one write. */
    method Reset()
      modifies this
      ensures currentAngle == Round2(defaultAngle)
      ensures log == old(log) + [DutyWrite(AngleToDuty(Round2(defaultAngle)), SettleMs)]
    {
      MoveToAngle(defaultAngle, true);
    }
  }
}
