/** The vocabulary shared by every box driver: the commands a gesture issues, and what
    replaying a trace of them does to the lid and switch-arm servos. */
module Commands {
  import opened Sg90
  import opened ArmLid
  import opened ArmSwitch

  /** One observable step of a box: a smooth arm move, a sensor read, or a pause. */
  datatype Command =
    | LidOpen(percentage: real, durationMs: int)
    | LidClose(percentage: real, durationMs: int)
    | ArmExtend(percentage: real, durationMs: int)
    | ArmRetract(percentage: real, durationMs: int)
    | ReadSwitch(on: bool)
    | ReadProximity(value: int)
    | Wait(seconds: real)

  /** The calibrated end angles of the two arms. */
  datatype Rig = Rig(closeAngle: int, openAngle: int, retractedAngle: int, extendedAngle: int)

  const DefaultRig := Rig(DefaultCloseAngle, DefaultOpenAngle, DefaultRetractedAngle, DefaultExtendedAngle)

  predicate IsLidMove(c: Command) {
    c.LidOpen? || c.LidClose?
  }

  predicate IsArmMove(c: Command) {
    c.ArmExtend? || c.ArmRetract?
  }

  predicate IsSensorRead(c: Command) {
    c.ReadSwitch? || c.ReadProximity?
  }

  predicate IsExtend(c: Command) {
    c.ArmExtend?
  }

  /** How many commands of `cmds` satisfy `p`. */
  function Count(cmds: seq<Command>, p: Command -> bool): (n: nat)
    ensures n <= |cmds|
  {
    if cmds == [] then 0 else Count(cmds[..|cmds| - 1], p) + (if p(cmds[|cmds| - 1]) then 1 else 0)
  }

  /** A count is zero exactly when no command satisfies the predicate. */
  lemma {:induction false} CountZero(cmds: seq<Command>, p: Command -> bool)
    ensures Count(cmds, p) == 0 <==> forall i :: 0 <= i < |cmds| ==> !p(cmds[i])
  {
    if cmds != [] {
      var init := cmds[..|cmds| - 1];
      CountZero(init, p);
      assert forall i :: 0 <= i < |init| ==> init[i] == cmds[i];
    }
  }

  lemma {:induction false} CountAppend(xs: seq<Command>, ys: seq<Command>, p: Command -> bool)
    ensures Count(xs + ys, p) == Count(xs, p) + Count(ys, p)
    decreases |ys|
  {
    if ys == [] {
      assert xs + ys == xs;
    } else {
      var init := ys[..|ys| - 1];
      assert (xs + ys)[..|xs + ys| - 1] == xs + init;
      CountAppend(xs, init, p);
    }
  }

  /** The lid angle a lid command moves to: closing by p is opening by 100 - p. */
  function LidTarget(rig: Rig, c: Command): real
    requires IsLidMove(c)
  {
    if c.LidOpen? then LidAngle(rig.closeAngle, rig.openAngle, c.percentage)
    else LidAngle(rig.closeAngle, rig.openAngle, 100.0 - c.percentage)
  }

  /** The switch-arm angle an arm command moves to: retracting by p is extending by 100 - p. */
  function ArmTarget(rig: Rig, c: Command): real
    requires IsArmMove(c)
  {
    if c.ArmExtend? then SwitchAngle(rig.retractedAngle, rig.extendedAngle, c.percentage)
    else SwitchAngle(rig.retractedAngle, rig.extendedAngle, 100.0 - c.percentage)
  }

  /** Full closing reaches the closed angle; full opening and closing by 0 percent both reach the open angle. */
  lemma LidTargetEnds(rig: Rig, d: int)
    ensures LidTarget(rig, LidClose(100.0, d)) == rig.closeAngle as real
    ensures LidTarget(rig, LidOpen(100.0, d)) == rig.openAngle as real
    ensures LidTarget(rig, LidClose(0.0, d)) == rig.openAngle as real
  {
  }

  /** Full retraction reaches the retracted angle; full extension and retracting by 0 percent both reach the extended angle. */
  lemma ArmTargetEnds(rig: Rig, d: int)
    ensures ArmTarget(rig, ArmRetract(100.0, d)) == rig.retractedAngle as real
    ensures ArmTarget(rig, ArmExtend(100.0, d)) == rig.extendedAngle as real
    ensures ArmTarget(rig, ArmRetract(0.0, d)) == rig.extendedAngle as real
  {
  }

  /** Duty writes of one command on the lid servo, starting from `angle`. */
  function LidStepWrites(rig: Rig, angle: real, c: Command): seq<DutyWrite> {
    if IsLidMove(c) then SmoothMove(angle, LidTarget(rig, c), c.durationMs, LidSteps) else []
  }

  /** Duty writes of one command on the switch-arm servo, starting from `angle`. */
  function ArmStepWrites(rig: Rig, angle: real, c: Command): seq<DutyWrite> {
    if IsArmMove(c) then SmoothMove(angle, ArmTarget(rig, c), c.durationMs, ArmSteps) else []
  }

  /** Lid angle after replaying `cmds` from `start`. */
  function LidRun(rig: Rig, start: real, cmds: seq<Command>): real {
    if cmds == [] then start
    else
      var c := cmds[|cmds| - 1];
      if IsLidMove(c) then LidTarget(rig, c) else LidRun(rig, start, cmds[..|cmds| - 1])
  }

  /** Lid duty writes of replaying `cmds` from `start`, oldest first. */
  function LidLog(rig: Rig, start: real, cmds: seq<Command>): seq<DutyWrite> {
    if cmds == [] then []
    else
      var init := cmds[..|cmds| - 1];
      LidLog(rig, start, init) + LidStepWrites(rig, LidRun(rig, start, init), cmds[|cmds| - 1])
  }

  /** Switch-arm angle after replaying `cmds` from `start`. */
  function ArmRun(rig: Rig, start: real, cmds: seq<Command>): real {
    if cmds == [] then start
    else
      var c := cmds[|cmds| - 1];
      if IsArmMove(c) then ArmTarget(rig, c) else ArmRun(rig, start, cmds[..|cmds| - 1])
  }

  /** Switch-arm duty writes of replaying `cmds` from `start`, oldest first. */
  function ArmLog(rig: Rig, start: real, cmds: seq<Command>): seq<DutyWrite> {
    if cmds == [] then []
    else
      var init := cmds[..|cmds| - 1];
      ArmLog(rig, start, init) + ArmStepWrites(rig, ArmRun(rig, start, init), cmds[|cmds| - 1])
  }

  lemma ConcatAssoc<T>(a: seq<T>, b: seq<T>, c: seq<T>)
    ensures (a + b) + c == a + (b + c)
  {
  }

  /** Replaying one more command: the unfolding every driver method relies on. */
  lemma LidSnoc(rig: Rig, start: real, cmds: seq<Command>, c: Command)
    ensures LidRun(rig, start, cmds + [c]) == if IsLidMove(c) then LidTarget(rig, c) else LidRun(rig, start, cmds)
    ensures LidLog(rig, start, cmds + [c]) == LidLog(rig, start, cmds) + LidStepWrites(rig, LidRun(rig, start, cmds), c)
  {
    assert (cmds + [c])[..|cmds|] == cmds;
  }

  lemma ArmSnoc(rig: Rig, start: real, cmds: seq<Command>, c: Command)
    ensures ArmRun(rig, start, cmds + [c]) == if IsArmMove(c) then ArmTarget(rig, c) else ArmRun(rig, start, cmds)
    ensures ArmLog(rig, start, cmds + [c]) == ArmLog(rig, start, cmds) + ArmStepWrites(rig, ArmRun(rig, start, cmds), c)
  {
    assert (cmds + [c])[..|cmds|] == cmds;
  }

  /** Replaying a concatenation is replaying the second part from where the first left the lid. */
  lemma {:induction false} LidRunAppend(rig: Rig, start: real, xs: seq<Command>, ys: seq<Command>)
    ensures LidRun(rig, start, xs + ys) == LidRun(rig, LidRun(rig, start, xs), ys)
    decreases |ys|
  {
    if ys == [] {
      assert xs + ys == xs;
    } else {
      var init := ys[..|ys| - 1];
      var c := ys[|ys| - 1];
      assert ys == init + [c];
      assert xs + ys == (xs + init) + [c];
      LidRunAppend(rig, start, xs, init);
      LidSnoc(rig, start, xs + init, c);
      LidSnoc(rig, LidRun(rig, start, xs), init, c);
    }
  }

  /** One more command at the end of the second part keeps the log split intact. */
  lemma LidLogStep(rig: Rig, start: real, xs: seq<Command>, init: seq<Command>, c: Command)
    requires LidRun(rig, start, xs + init) == LidRun(rig, LidRun(rig, start, xs), init)
    requires LidLog(rig, start, xs + init) == LidLog(rig, start, xs) + LidLog(rig, LidRun(rig, start, xs), init)
    ensures LidLog(rig, start, (xs + init) + [c]) == LidLog(rig, start, xs) + LidLog(rig, LidRun(rig, start, xs), init + [c])
  {
    var mid := LidRun(rig, start, xs);
    LidSnoc(rig, start, xs + init, c);
    LidSnoc(rig, mid, init, c);
    var w := LidStepWrites(rig, LidRun(rig, mid, init), c);
    ConcatAssoc(LidLog(rig, start, xs), LidLog(rig, mid, init), w);
  }

  /** The duty log of a concatenation is the first part's log followed by the second part's. */
  lemma {:induction false} LidLogAppend(rig: Rig, start: real, xs: seq<Command>, ys: seq<Command>)
    ensures LidLog(rig, start, xs + ys) == LidLog(rig, start, xs) + LidLog(rig, LidRun(rig, start, xs), ys)
    decreases |ys|
  {
    if ys == [] {
      assert xs + ys == xs;
    } else {
      var init := ys[..|ys| - 1];
      var c := ys[|ys| - 1];
      assert ys == init + [c];
      assert xs + ys == (xs + init) + [c];
      LidLogAppend(rig, start, xs, init);
      LidRunAppend(rig, start, xs, init);
      LidLogStep(rig, start, xs, init, c);
    }
  }

  /** Replaying a concatenation is replaying the second part from where the first left the switch arm. */
  lemma {:induction false} ArmRunAppend(rig: Rig, start: real, xs: seq<Command>, ys: seq<Command>)
    ensures ArmRun(rig, start, xs + ys) == ArmRun(rig, ArmRun(rig, start, xs), ys)
    decreases |ys|
  {
    if ys == [] {
      assert xs + ys == xs;
    } else {
      var init := ys[..|ys| - 1];
      var c := ys[|ys| - 1];
      assert ys == init + [c];
      assert xs + ys == (xs + init) + [c];
      ArmRunAppend(rig, start, xs, init);
      ArmSnoc(rig, start, xs + init, c);
      ArmSnoc(rig, ArmRun(rig, start, xs), init, c);
    }
  }

  /** One more command at the end of the second part keeps the log split intact. */
  lemma ArmLogStep(rig: Rig, start: real, xs: seq<Command>, init: seq<Command>, c: Command)
    requires ArmRun(rig, start, xs + init) == ArmRun(rig, ArmRun(rig, start, xs), init)
    requires ArmLog(rig, start, xs + init) == ArmLog(rig, start, xs) + ArmLog(rig, ArmRun(rig, start, xs), init)
    ensures ArmLog(rig, start, (xs + init) + [c]) == ArmLog(rig, start, xs) + ArmLog(rig, ArmRun(rig, start, xs), init + [c])
  {
    var mid := ArmRun(rig, start, xs);
    ArmSnoc(rig, start, xs + init, c);
    ArmSnoc(rig, mid, init, c);
    var w := ArmStepWrites(rig, ArmRun(rig, mid, init), c);
    ConcatAssoc(ArmLog(rig, start, xs), ArmLog(rig, mid, init), w);
  }

  /** The duty log of a concatenation is the first part's log followed by the second part's. */
  lemma {:induction false} ArmLogAppend(rig: Rig, start: real, xs: seq<Command>, ys: seq<Command>)
    ensures ArmLog(rig, start, xs + ys) == ArmLog(rig, start, xs) + ArmLog(rig, ArmRun(rig, start, xs), ys)
    decreases |ys|
  {
    if ys == [] {
      assert xs + ys == xs;
    } else {
      var init := ys[..|ys| - 1];
      var c := ys[|ys| - 1];
      assert ys == init + [c];
      assert xs + ys == (xs + init) + [c];
      ArmLogAppend(rig, start, xs, init);
      ArmRunAppend(rig, start, xs, init);
      ArmLogStep(rig, start, xs, init, c);
    }
  }

  /** Commands that do not move the lid leave its angle and its duty log alone. */
  lemma {:induction false} LidIdle(rig: Rig, start: real, cmds: seq<Command>)
    requires forall i :: 0 <= i < |cmds| ==> !IsLidMove(cmds[i])
    ensures LidRun(rig, start, cmds) == start && LidLog(rig, start, cmds) == []
  {
    if cmds != [] {
      LidIdle(rig, start, cmds[..|cmds| - 1]);
    }
  }

  lemma {:induction false} ArmIdle(rig: Rig, start: real, cmds: seq<Command>)
    requires forall i :: 0 <= i < |cmds| ==> !IsArmMove(cmds[i])
    ensures ArmRun(rig, start, cmds) == start && ArmLog(rig, start, cmds) == []
  {
    if cmds != [] {
      ArmIdle(rig, start, cmds[..|cmds| - 1]);
    }
  }

  /** The lid ends where the last lid command of a trace sends it. */
  lemma LidEndsAt(rig: Rig, start: real, xs: seq<Command>, c: Command, zs: seq<Command>)
    requires IsLidMove(c)
    requires forall i :: 0 <= i < |zs| ==> !IsLidMove(zs[i])
    ensures LidRun(rig, start, xs + [c] + zs) == LidTarget(rig, c)
  {
    LidRunAppend(rig, start, xs + [c], zs);
    LidSnoc(rig, start, xs, c);
    LidIdle(rig, LidRun(rig, start, xs + [c]), zs);
  }

  /** The switch arm ends where the last arm command of a trace sends it. */
  lemma ArmEndsAt(rig: Rig, start: real, xs: seq<Command>, c: Command, zs: seq<Command>)
    requires IsArmMove(c)
    requires forall i :: 0 <= i < |zs| ==> !IsArmMove(zs[i])
    ensures ArmRun(rig, start, xs + [c] + zs) == ArmTarget(rig, c)
  {
    ArmRunAppend(rig, start, xs + [c], zs);
    ArmSnoc(rig, start, xs, c);
    ArmIdle(rig, ArmRun(rig, start, xs + [c]), zs);
  }
}
