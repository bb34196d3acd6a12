/** The switch arm: one SG90 servo whose angle rises from the retracted angle to the extended angle. */
module ArmSwitch {
  import opened Numerics
  import opened Sg90

  const DefaultRetractedAngle := 40
  const DefaultExtendedAngle := 175
  /** Interpolation steps of every switch-arm move. */
  const ArmSteps := 100

  /** Servo angle for an arm extended `percentage` percent: 0 is retracted, 100 fully extended. */
  function SwitchAngle(retractedAngle: int, extendedAngle: int, percentage: real): (a: real)
    ensures percentage == 0.0 ==> a == retractedAngle as real
    ensures percentage == 100.0 ==> a == extendedAngle as real
  {
    retractedAngle as real + (extendedAngle - retractedAngle) as real * percentage / 100.0
  }

  /** Between 0 and 100 percent the arm angle stays between the two end angles. */
  lemma SwitchAngleBetween(retractedAngle: int, extendedAngle: int, percentage: real)
    requires 0.0 <= percentage <= 100.0
    ensures retractedAngle <= extendedAngle ==>
      retractedAngle as real <= SwitchAngle(retractedAngle, extendedAngle, percentage) <= extendedAngle as real
    ensures extendedAngle <= retractedAngle ==>
      extendedAngle as real <= SwitchAngle(retractedAngle, extendedAngle, percentage) <= retractedAngle as real
  {
    PercentOfSpan((extendedAngle - retractedAngle) as real, percentage);
  }

  /** With the extended angle above the retracted one, extending further means a strictly larger angle. */
  lemma SwitchAngleIncreasing(retractedAngle: int, extendedAngle: int, p: real, q: real)
    requires retractedAngle < extendedAngle && p < q
    ensures SwitchAngle(retractedAngle, extendedAngle, p) < SwitchAngle(retractedAngle, extendedAngle, q)
  {
    var span := (extendedAngle - retractedAngle) as real;
    assert span * (q - p) > 0.0;
  }

  class SwitchArm {
    const servo: Servo
    const retractedAngle: int
    const extendedAngle: int

    /** The servo's default is the retracted angle. */
    ghost predicate Valid() {
      servo.defaultAngle == retractedAngle as real
    }

    /** Builds the servo at the retracted angle and resets it there: one reset write. */
    constructor (retractedAngle: int := DefaultRetractedAngle, extendedAngle: int := DefaultExtendedAngle)
      ensures Valid() && fresh(servo)
      ensures this.retractedAngle == retractedAngle && this.extendedAngle == extendedAngle
      ensures servo.currentAngle == retractedAngle as real
      ensures servo.log == [DutyWrite(AngleToDuty(retractedAngle as real), SettleMs)]
    {
      servo := new Servo(retractedAngle as real);
      this.retractedAngle := retractedAngle;
      this.extendedAngle := extendedAngle;
      new;
      Round2OfInt(retractedAngle);
      Reset();
    }

    /** Smooth move to `percentage` percent extended, in 100 steps. */
    method Extend(percentage: real := 100.0, duration: int := 500)
      modifies servo
      ensures servo.currentAngle == SwitchAngle(retractedAngle, extendedAngle, percentage)
      ensures servo.log == old(servo.log)
        + SmoothMove(old(servo.currentAngle), SwitchAngle(retractedAngle, extendedAngle, percentage), duration, ArmSteps)
    {
      var angle := SwitchAngle(retractedAngle, extendedAngle, percentage);
      servo.MoveSmoothly(angle, duration, ArmSteps);
    }

    /** Smooth move that retracts the arm by `percentage` percent: 100 is fully retracted. */
    method Retract(percentage: real := 100.0, duration: int := 500)
      modifies servo
      ensures servo.currentAngle == SwitchAngle(retractedAngle, extendedAngle, 100.0 - percentage)
      ensures servo.log == old(servo.log)
        + SmoothMove(old(servo.currentAngle), SwitchAngle(retractedAngle, extendedAngle, 100.0 - percentage), duration, ArmSteps)
    {
      var angle := SwitchAngle(retractedAngle, extendedAngle, 100.0 - percentage);
      servo.MoveSmoothly(angle, duration, ArmSteps);
    }

    /** Forced instant move back to the retracted angle. */
    method Reset()
      requires Valid()
      modifies servo
      ensures servo.currentAngle == Round2(retractedAngle as real)
      ensures servo.log == old(servo.log) + [DutyWrite(AngleToDuty(Round2(retractedAngle as real)), SettleMs)]
    {
      servo.Reset();
    }
  }

  /** Extending by a percentage and then retracting by the same percentage brings the arm
      back to the retracted angle only at 100 percent; a partial retraction stops short. */
  lemma ExtendThenRetract(retractedAngle: int, extendedAngle: int, p: real)
    ensures SwitchAngle(retractedAngle, extendedAngle, 100.0 - 100.0) == retractedAngle as real
    ensures retractedAngle < extendedAngle && p < 100.0 ==>
      SwitchAngle(retractedAngle, extendedAngle, 100.0 - p) > retractedAngle as real
  {
    if retractedAngle < extendedAngle && p < 100.0 {
      SwitchAngleIncreasing(retractedAngle, extendedAngle, 0.0, 100.0 - p);
    }
  }
}
