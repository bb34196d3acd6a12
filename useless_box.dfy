/** The box facade: two arms and fixed gesture sequences over them. Every arm command,
    sensor read and pause is appended to `trace`, and the servos stay exactly where
    replaying that trace puts them. */
module BoxFacade {
  import opened Sg90
  import opened ArmLid
  import opened ArmSwitch
  import opened Proximity
  import opened Commands

  class Box {
    const lidArm: LidArm
    const switchArm: SwitchArm
    /** Every command the box has issued, oldest first. */
    var trace: seq<Command>

    function RigOf(): Rig {
      Rig(lidArm.closeAngle, lidArm.openAngle, switchArm.retractedAngle, switchArm.extendedAngle)
    }

    /** Two distinct servos, each at the angle and with the duty log that replaying the
        trace gives after its construction-time reset write. */
    ghost predicate Valid()
      reads this, lidArm.servo, switchArm.servo
    {
      && lidArm.Valid() && switchArm.Valid() && lidArm.servo != switchArm.servo
      && lidArm.servo.currentAngle == LidRun(RigOf(), lidArm.closeAngle as real, trace)
      && lidArm.servo.log == [DutyWrite(AngleToDuty(lidArm.closeAngle as real), SettleMs)]
                             + LidLog(RigOf(), lidArm.closeAngle as real, trace)
      && switchArm.servo.currentAngle == ArmRun(RigOf(), switchArm.retractedAngle as real, trace)
      && switchArm.servo.log == [DutyWrite(AngleToDuty(switchArm.retractedAngle as real), SettleMs)]
                                + ArmLog(RigOf(), switchArm.retractedAngle as real, trace)
    }

    /** A switch arm and a lid arm with their default angles, both reset, nothing issued yet. */
    constructor ()
      ensures Valid() && trace == []
      ensures RigOf() == DefaultRig
      ensures fresh(lidArm) && fresh(switchArm) && fresh(lidArm.servo) && fresh(switchArm.servo)
    {
      switchArm := new SwitchArm();
      lidArm := new LidArm();
      trace := [];
    }

    /** Forwards percentage and duration unchanged to the lid arm's `Open`. */
    method OpenLid(percentage: real, duration: int)
      requires Valid()
      modifies this, lidArm.servo
      ensures Valid()
      ensures trace == old(trace) + [LidOpen(percentage, duration)]
      ensures lidArm.servo.currentAngle == LidAngle(lidArm.closeAngle, lidArm.openAngle, percentage)
    {
      var c := LidOpen(percentage, duration);
      assert LidTarget(RigOf(), c) == LidAngle(lidArm.closeAngle, lidArm.openAngle, percentage);
      LidSnoc(RigOf(), lidArm.closeAngle as real, trace, c);
      ArmSnoc(RigOf(), switchArm.retractedAngle as real, trace, c);
      ConcatAssoc(lidArm.servo.log[..1], LidLog(RigOf(), lidArm.closeAngle as real, trace),
                  LidStepWrites(RigOf(), lidArm.servo.currentAngle, c));
      ConcatAssoc(switchArm.servo.log[..1], ArmLog(RigOf(), switchArm.retractedAngle as real, trace),
                  ArmStepWrites(RigOf(), switchArm.servo.currentAngle, c));
      lidArm.Open(percentage, duration);
      trace := trace + [c];
    }

    /** Forwards percentage and duration unchanged to the lid arm's `Close`. */
    method CloseLid(percentage: real, duration: int)
      requires Valid()
      modifies this, lidArm.servo
      ensures Valid()
      ensures trace == old(trace) + [LidClose(percentage, duration)]
      ensures lidArm.servo.currentAngle == LidAngle(lidArm.closeAngle, lidArm.openAngle, 100.0 - percentage)
    {
      var c := LidClose(percentage, duration);
      assert LidTarget(RigOf(), c) == LidAngle(lidArm.closeAngle, lidArm.openAngle, 100.0 - percentage);
      LidSnoc(RigOf(), lidArm.closeAngle as real, trace, c);
      ArmSnoc(RigOf(), switchArm.retractedAngle as real, trace, c);
      ConcatAssoc(lidArm.servo.log[..1], LidLog(RigOf(), lidArm.closeAngle as real, trace),
                  LidStepWrites(RigOf(), lidArm.servo.currentAngle, c));
      ConcatAssoc(switchArm.servo.log[..1], ArmLog(RigOf(), switchArm.retractedAngle as real, trace),
                  ArmStepWrites(RigOf(), switchArm.servo.currentAngle, c));
      lidArm.Close(percentage, duration);
      trace := trace + [c];
    }

    /** The switch arm's `extend`, reached through the box. */
    method ExtendArm(percentage: real, duration: int)
      requires Valid()
      modifies this, switchArm.servo
      ensures Valid()
      ensures trace == old(trace) + [ArmExtend(percentage, duration)]
      ensures switchArm.servo.currentAngle == SwitchAngle(switchArm.retractedAngle, switchArm.extendedAngle, percentage)
    {
      var c := ArmExtend(percentage, duration);
      assert ArmTarget(RigOf(), c) == SwitchAngle(switchArm.retractedAngle, switchArm.extendedAngle, percentage);
      LidSnoc(RigOf(), lidArm.closeAngle as real, trace, c);
      ArmSnoc(RigOf(), switchArm.retractedAngle as real, trace, c);
      ConcatAssoc(lidArm.servo.log[..1], LidLog(RigOf(), lidArm.closeAngle as real, trace),
                  LidStepWrites(RigOf(), lidArm.servo.currentAngle, c));
      ConcatAssoc(switchArm.servo.log[..1], ArmLog(RigOf(), switchArm.retractedAngle as real, trace),
                  ArmStepWrites(RigOf(), switchArm.servo.currentAngle, c));
      switchArm.Extend(percentage, duration);
      trace := trace + [c];
    }

    /** The switch arm's `retract`, reached through the box. */
    method RetractArm(percentage: real, duration: int)
      requires Valid()
      modifies this, switchArm.servo
      ensures Valid()
      ensures trace == old(trace) + [ArmRetract(percentage, duration)]
      ensures switchArm.servo.currentAngle == SwitchAngle(switchArm.retractedAngle, switchArm.extendedAngle, 100.0 - percentage)
    {
      var c := ArmRetract(percentage, duration);
      assert ArmTarget(RigOf(), c) == SwitchAngle(switchArm.retractedAngle, switchArm.extendedAngle, 100.0 - percentage);
      LidSnoc(RigOf(), lidArm.closeAngle as real, trace, c);
      ArmSnoc(RigOf(), switchArm.retractedAngle as real, trace, c);
      ConcatAssoc(lidArm.servo.log[..1], LidLog(RigOf(), lidArm.closeAngle as real, trace),
                  LidStepWrites(RigOf(), lidArm.servo.currentAngle, c));
      ConcatAssoc(switchArm.servo.log[..1], ArmLog(RigOf(), switchArm.retractedAngle as real, trace),
                  ArmStepWrites(RigOf(), switchArm.servo.currentAngle, c));
      switchArm.Retract(percentage, duration);
      trace := trace + [c];
    }

    /** A blocking pause, recorded and otherwise without effect. */
    method Sleep(seconds: real)
      requires Valid()
      modifies this
      ensures Valid()
      ensures trace == old(trace) + [Wait(seconds)]
    {
      var c := Wait(seconds);
      LidSnoc(RigOf(), lidArm.closeAngle as real, trace, c);
      ArmSnoc(RigOf(), switchArm.retractedAngle as real, trace, c);
      ConcatAssoc(lidArm.servo.log[..1], LidLog(RigOf(), lidArm.closeAngle as real, trace),
                  LidStepWrites(RigOf(), lidArm.servo.currentAngle, c));
      ConcatAssoc(switchArm.servo.log[..1], ArmLog(RigOf(), switchArm.retractedAngle as real, trace),
                  ArmStepWrites(RigOf(), switchArm.servo.currentAngle, c));
      trace := trace + [c];
    }

    /** Reads the toggle switch; `reading` is what the pin reports. */
    method GetSwitchState(reading: bool) returns (on: bool)
      requires Valid()
      modifies this
      ensures Valid()
      ensures on == reading
      ensures trace == old(trace) + [ReadSwitch(reading)]
    {
      var c := ReadSwitch(reading);
      LidSnoc(RigOf(), lidArm.closeAngle as real, trace, c);
      ArmSnoc(RigOf(), switchArm.retractedAngle as real, trace, c);
      ConcatAssoc(lidArm.servo.log[..1], LidLog(RigOf(), lidArm.closeAngle as real, trace),
                  LidStepWrites(RigOf(), lidArm.servo.currentAngle, c));
      ConcatAssoc(switchArm.servo.log[..1], ArmLog(RigOf(), switchArm.retractedAngle as real, trace),
                  ArmStepWrites(RigOf(), switchArm.servo.currentAngle, c));
      trace := trace + [c];
      on := reading;
    }

    /** Reads the proximity sensor (default thresholds); `raw` is its raw value. */
    method GetProximity(raw: int) returns (t: Tier)
      requires Valid()
      modifies this
      ensures Valid()
      ensures t == DefaultClassify(raw)
      ensures trace == old(trace) + [ReadProximity(raw)]
    {
      var c := ReadProximity(raw);
      LidSnoc(RigOf(), lidArm.closeAngle as real, trace, c);
      ArmSnoc(RigOf(), switchArm.retractedAngle as real, trace, c);
      ConcatAssoc(lidArm.servo.log[..1], LidLog(RigOf(), lidArm.closeAngle as real, trace),
                  LidStepWrites(RigOf(), lidArm.servo.currentAngle, c));
      ConcatAssoc(switchArm.servo.log[..1], ArmLog(RigOf(), switchArm.retractedAngle as real, trace),
                  ArmStepWrites(RigOf(), switchArm.servo.currentAngle, c));
      trace := trace + [c];
      t := DefaultClassify(raw);
    }

    /** Extend fully, hold half a second, retract fully: the arm ends retracted. */
    method SwitchOff(duration: int)
      requires Valid()
      modifies this, switchArm.servo
      ensures Valid()
      ensures trace == old(trace) + [ArmExtend(100.0, duration), Wait(0.5), ArmRetract(100.0, duration)]
      ensures switchArm.servo.currentAngle == switchArm.retractedAngle as real
    {
      ExtendArm(100.0, duration);
      Sleep(0.5);
      RetractArm(100.0, duration);
    }

    /** Half open, pause, then "close" by 0 percent: the lid ends fully open. */
    method PlayPeekaboo()
      requires Valid()
      modifies this, lidArm.servo
      ensures Valid()
      ensures trace == old(trace) + [LidOpen(50.0, 300), Wait(0.5), LidClose(0.0, 300)]
      ensures lidArm.servo.currentAngle == lidArm.openAngle as real
    {
      OpenLid(50.0, 300);
      Sleep(0.5);
      CloseLid(0.0, 300);
    }

    /** Open 30 percent, pause, then "close" by 0 percent: the lid ends fully open. */
    method Tease()
      requires Valid()
      modifies this, lidArm.servo
      ensures Valid()
      ensures trace == old(trace) + [LidOpen(30.0, 300), Wait(0.3), LidClose(0.0, 300)]
      ensures lidArm.servo.currentAngle == lidArm.openAngle as real
    {
      OpenLid(30.0, 300);
      Sleep(0.3);
      CloseLid(0.0, 300);
    }

    /** Open fully, extend and retract by half, "close" by 0 percent: the lid ends fully open
        and the arm stays at its half-way angle, since extending and retracting by 50 coincide. */
    method ThreateningTease()
      requires Valid()
      modifies this, lidArm.servo, switchArm.servo
      ensures Valid()
      ensures trace == old(trace) + [LidOpen(100.0, 500), ArmExtend(50.0, 300), Wait(0.5), ArmRetract(50.0, 300), LidClose(0.0, 500)]
      ensures lidArm.servo.currentAngle == lidArm.openAngle as real
      ensures switchArm.servo.currentAngle == SwitchAngle(switchArm.retractedAngle, switchArm.extendedAngle, 50.0)
    {
      OpenLid(100.0, 500);
      ExtendArm(50.0, 300);
      Sleep(0.5);
      RetractArm(50.0, 300);
      CloseLid(0.0, 500);
    }
  }
}
