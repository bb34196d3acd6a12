/** The lid arm: one SG90 servo whose angle falls from the closed angle to the open angle. */
module ArmLid {
  import opened Numerics
  import opened Sg90

  const DefaultCloseAngle := 90
  const DefaultOpenAngle := 30
  /** The lid counts as open while its servo stands below this angle. */
  const OpenBelow := 50.0
  /** Interpolation steps of every lid move (the servo's default). */
  const LidSteps := 50

  /** Servo angle for a lid opened `percentage` percent: 0 is closed, 100 fully open. */
  function LidAngle(closeAngle: int, openAngle: int, percentage: real): (a: real)
    ensures percentage == 0.0 ==> a == closeAngle as real
    ensures percentage == 100.0 ==> a == openAngle as real
  {
    closeAngle as real - (closeAngle - openAngle) as real * percentage / 100.0
  }

  /** Between 0 and 100 percent the lid angle stays between the two end angles. */
  lemma LidAngleBetween(closeAngle: int, openAngle: int, percentage: real)
    requires 0.0 <= percentage <= 100.0
    ensures openAngle <= closeAngle ==>
      openAngle as real <= LidAngle(closeAngle, openAngle, percentage) <= closeAngle as real
    ensures closeAngle <= openAngle ==>
      closeAngle as real <= LidAngle(closeAngle, openAngle, percentage) <= openAngle as real
  {
    PercentOfSpan((closeAngle - openAngle) as real, percentage);
  }

  /** With the open angle below the closed one, opening further means a strictly smaller angle. */
  lemma LidAngleDecreasing(closeAngle: int, openAngle: int, p: real, q: real)
    requires openAngle < closeAngle && p < q
    ensures LidAngle(closeAngle, openAngle, q) < LidAngle(closeAngle, openAngle, p)
  {
    var span := (closeAngle - openAngle) as real;
    assert span * (q - p) > 0.0;
  }

  class LidArm {
    const servo: Servo
    const closeAngle: int
    const openAngle: int

    /** The servo's default is the closed angle, the arm never swaps its servo. */
    ghost predicate Valid() {
      servo.defaultAngle == closeAngle as real
    }

    /** Builds the servo at the closed angle and resets it there: one reset write. */
    constructor (closeAngle: int := DefaultCloseAngle, openAngle: int := DefaultOpenAngle)
      ensures Valid() && fresh(servo)
      ensures this.closeAngle == closeAngle && this.openAngle == openAngle
      ensures servo.currentAngle == closeAngle as real
      ensures servo.log == [DutyWrite(AngleToDuty(closeAngle as real), SettleMs)]
      ensures IsOpen() <==> closeAngle as real < OpenBelow
    {
      servo := new Servo(closeAngle as real);
      this.closeAngle := closeAngle;
      this.openAngle := openAngle;
      new;
      Round2OfInt(closeAngle);
      Reset();
    }

    /** Smooth move to `percentage` percent open. */
    method Open(percentage: real := 100.0, duration: int := 500)
      modifies servo
      ensures servo.currentAngle == LidAngle(closeAngle, openAngle, percentage)
      ensures servo.log == old(servo.log)
        + SmoothMove(old(servo.currentAngle), LidAngle(closeAngle, openAngle, percentage), duration, LidSteps)
    {
      var angle := LidAngle(closeAngle, openAngle, percentage);
      servo.MoveSmoothly(angle, duration);
    }

    /** Smooth move that closes the lid by `percentage` percent: 100 is fully closed. */
    method Close(percentage: real := 100.0, duration: int := 500)
      modifies servo
      ensures servo.currentAngle == LidAngle(closeAngle, openAngle, 100.0 - percentage)
      ensures servo.log == old(servo.log)
        + SmoothMove(old(servo.currentAngle), LidAngle(closeAngle, openAngle, 100.0 - percentage), duration, LidSteps)
    {
      var angle := LidAngle(closeAngle, openAngle, 100.0 - percentage);
      servo.MoveSmoothly(angle, duration);
    }

    /** Whether the servo stands below the open threshold. */
    predicate IsOpen()
      reads servo
    {
      servo.currentAngle < OpenBelow
    }

    /** Forced instant move back to the closed angle. */
    method Reset()
      requires Valid()
      modifies servo
      ensures servo.currentAngle == Round2(closeAngle as real)
      ensures servo.log == old(servo.log) + [DutyWrite(AngleToDuty(Round2(closeAngle as real)), SettleMs)]
      ensures IsOpen() <==> closeAngle as real < OpenBelow
    {
      Round2OfInt(closeAngle);
      servo.Reset();
    }
  }

  /** With the default angles a lid reads as open exactly when opened more than two thirds. */
  lemma DefaultLidOpenness(p: real)
    ensures LidAngle(DefaultCloseAngle, DefaultOpenAngle, 100.0) < OpenBelow
    ensures LidAngle(DefaultCloseAngle, DefaultOpenAngle, 0.0) >= OpenBelow
    ensures LidAngle(DefaultCloseAngle, DefaultOpenAngle, p) < OpenBelow <==> p > 200.0 / 3.0
  {
  }
}
