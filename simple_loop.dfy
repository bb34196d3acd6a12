/** The stand-alone test loop: a switch arm and a lid arm driven straight from the toggle
    switch and the proximity reading, with a countdown that delays the switch-off after
    every rising edge of the switch. */
module SimpleLoop {
  import opened Numerics
  import opened Sg90
  import opened ArmLid
  import opened ArmSwitch

  /** Ticks the loop waits after the switch is turned on. */
  const EdgeCount := 20
  /** Proximity threshold of both lid decisions. */
  const NearBelow := 100

  /** What one tick does with the arms. */
  datatype Action = CloseLid | SwitchOffAndClose | OpenLid | Hold

  /** The count the tick decides with: a rising edge of the switch restarts it. */
  function DecisionCount(count: int, lastSwitch: Option<bool>, currentSwitch: bool): (c: int)
    ensures currentSwitch && !Truthy(lastSwitch) ==> c == EdgeCount
    ensures !(currentSwitch && !Truthy(lastSwitch)) ==> c == count
  {
    if currentSwitch && !Truthy(lastSwitch) then EdgeCount else count
  }

  /** The branch structure of one tick. */
  function Decide(lidOpen: bool, prox: int, currentSwitch: bool, count: int): (a: Action)
  {
    if lidOpen then
      if prox < NearBelow && count < 0 then CloseLid
      else if currentSwitch && count <= 0 then SwitchOffAndClose
      else Hold
    else if prox > NearBelow || count == 0 then OpenLid
    else Hold
  }

  /** The action of one tick, given the state before it. */
  function TickAction(lidOpen: bool, prox: int, currentSwitch: bool, count: int, lastSwitch: Option<bool>): Action
  {
    Decide(lidOpen, prox, currentSwitch, DecisionCount(count, lastSwitch, currentSwitch))
  }

  /** A move is always toward the other lid position, and each move has exactly its trigger. */
  lemma DecideCases(lidOpen: bool, prox: int, currentSwitch: bool, count: int)
    ensures var a := Decide(lidOpen, prox, currentSwitch, count);
      && (a == OpenLid <==> !lidOpen && (prox > NearBelow || count == 0))
      && (a == CloseLid <==> lidOpen && prox < NearBelow && count < 0)
      && (a == SwitchOffAndClose <==> lidOpen && !(prox < NearBelow && count < 0) && currentSwitch && count <= 0)
  {
  }

  /** While the countdown is still running, an open lid is neither closed nor used to switch off. */
  lemma CountdownHolds(prox: int, currentSwitch: bool, count: int)
    requires count > 0
    ensures Decide(true, prox, currentSwitch, count) == Hold
  {
  }

  /** When the countdown reaches zero a closed lid opens and an open lid with the switch on
      is switched off, whatever the sensor says: a count of 0 is not below zero, so the
      hand-near close does not fire. */
  lemma CountdownExpires(prox: int)
    ensures Decide(false, prox, true, 0) == OpenLid
    ensures Decide(true, prox, true, 0) == SwitchOffAndClose
  {
  }

  /** The switch reading after a run of ticks. */
  function LastAfter(lastSwitch: Option<bool>, switches: seq<bool>): (l: Option<bool>)
    ensures switches == [] ==> l == lastSwitch
    ensures switches != [] ==> l == Some(switches[|switches| - 1])
  {
    if switches == [] then lastSwitch else Some(switches[|switches| - 1])
  }

  /** The count after a run of ticks: every tick decides with `DecisionCount` and then counts down by one. */
  function CountAfter(count: int, lastSwitch: Option<bool>, switches: seq<bool>): int
  {
    if switches == [] then count
    else
      var init := switches[..|switches| - 1];
      DecisionCount(CountAfter(count, lastSwitch, init), LastAfter(lastSwitch, init), switches[|switches| - 1]) - 1
  }

  /** Whether the lid reads open after a run of ticks: an opening tick opens it, a closing
      or switching-off tick closes it, and a holding tick leaves it as it was. */
  function LidOpenAfter(lidOpen: bool, count: int, lastSwitch: Option<bool>, switches: seq<bool>, proxes: seq<int>): bool
    requires |switches| == |proxes|
  {
    if switches == [] then lidOpen
    else
      var n := |switches| - 1;
      var before := LidOpenAfter(lidOpen, count, lastSwitch, switches[..n], proxes[..n]);
      match TickAction(before, proxes[n], switches[n], CountAfter(count, lastSwitch, switches[..n]), LastAfter(lastSwitch, switches[..n]))
      case OpenLid => true
      case CloseLid => false
      case SwitchOffAndClose => false
      case Hold => before
  }

  /** Once the switch reads on and stays on, each further tick lowers the count by exactly one. */
  lemma {:induction false} SteadyCountdown(count: int, lastSwitch: Option<bool>, switches: seq<bool>)
    requires switches != [] && switches[0]
    requires forall i :: 0 <= i < |switches| ==> switches[i]
    ensures CountAfter(count, lastSwitch, switches) == CountAfter(count, lastSwitch, [true]) - (|switches| - 1)
    decreases |switches|
  {
    if |switches| > 1 {
      var init := switches[..|switches| - 1];
      SteadyCountdown(count, lastSwitch, init);
      assert LastAfter(lastSwitch, init) == Some(true);
    } else {
      assert switches == [true];
    }
  }

  /** A rising edge followed by the switch staying on: the tick `k` ticks after the edge decides
      with count `EdgeCount - k`, so for twenty ticks the open lid is held and on the twentieth
      the box acts. */
  lemma {:induction false} EdgeDelay(count: int, lastSwitch: Option<bool>, switches: seq<bool>)
    requires !Truthy(lastSwitch)
    requires switches != []
    requires forall i :: 0 <= i < |switches| ==> switches[i]
    ensures var last := LastAfter(lastSwitch, switches[..|switches| - 1]);
      var c := DecisionCount(CountAfter(count, lastSwitch, switches[..|switches| - 1]), last, true);
      c == EdgeCount - (|switches| - 1)
  {
    var init := switches[..|switches| - 1];
    if init == [] {
    } else {
      assert CountAfter(count, lastSwitch, [true]) == EdgeCount - 1 by {
        assert [true][..0] == [];
      }
      SteadyCountdown(count, lastSwitch, init);
      assert LastAfter(lastSwitch, init) == Some(true);
    }
  }

  /** An open lid stays open through the twenty ticks after a rising edge while the
      switch stays on, whatever the proximity readings. */
  lemma {:induction false} EdgeHoldsLidOpen(count: int, lastSwitch: Option<bool>, switches: seq<bool>, proxes: seq<int>)
    requires !Truthy(lastSwitch) && |switches| == |proxes| <= EdgeCount
    requires forall i :: 0 <= i < |switches| ==> switches[i]
    ensures LidOpenAfter(true, count, lastSwitch, switches, proxes)
    decreases |switches|
  {
    if switches != [] {
      var n := |switches| - 1;
      EdgeHoldsLidOpen(count, lastSwitch, switches[..n], proxes[..n]);
      EdgeDelay(count, lastSwitch, switches);
      CountdownHolds(proxes[n], true, EdgeCount - n);
    }
  }

  /** The loop's globals and the two arms it drives. */
  class Sketch {
    const lidArm: LidArm
    const switchArm: SwitchArm
    var lastSwitch: Option<bool>
    var count: int

    /** Two distinct servos on default-angle arms. */
    ghost predicate Valid()
      reads this, lidArm.servo, switchArm.servo
    {
      && lidArm.Valid() && switchArm.Valid() && lidArm.servo != switchArm.servo
      && lidArm.closeAngle == DefaultCloseAngle && lidArm.openAngle == DefaultOpenAngle
      && switchArm.retractedAngle == DefaultRetractedAngle && switchArm.extendedAngle == DefaultExtendedAngle
    }

    /** Both arms reset, no switch reading yet, count at -1. */
    constructor ()
      ensures Valid() && fresh(lidArm.servo) && fresh(switchArm.servo)
      ensures lastSwitch == None && count == -1
      ensures !lidArm.IsOpen()
      ensures switchArm.servo.currentAngle == DefaultRetractedAngle as real
    {
      switchArm := new SwitchArm();
      lidArm := new LidArm();
      lastSwitch := None;
      count := -1;
    }

    /** Both branches of one loop iteration: a possible restart of the count, one lid/arm action,
        the countdown step and the remembered reading. The closing move lands on the closed
        angle and the opening move on the open angle, so the lid's openness flips accordingly. */
    method Tick(currentSwitch: bool, prox: int)
      requires Valid()
      modifies this, lidArm.servo, switchArm.servo
      ensures Valid()
      ensures TickAction(old(lidArm.IsOpen()), prox, currentSwitch, old(count), old(lastSwitch)) == OpenLid ==>
        (&& lidArm.servo.currentAngle == DefaultOpenAngle as real && lidArm.IsOpen()
         && lidArm.servo.log == old(lidArm.servo.log) + SmoothMove(old(lidArm.servo.currentAngle), DefaultOpenAngle as real, 500, LidSteps))
      ensures TickAction(old(lidArm.IsOpen()), prox, currentSwitch, old(count), old(lastSwitch)) in {CloseLid, SwitchOffAndClose} ==>
        (&& lidArm.servo.currentAngle == DefaultCloseAngle as real && !lidArm.IsOpen()
         && lidArm.servo.log == old(lidArm.servo.log) + SmoothMove(old(lidArm.servo.currentAngle), DefaultCloseAngle as real, 500, LidSteps))
      ensures TickAction(old(lidArm.IsOpen()), prox, currentSwitch, old(count), old(lastSwitch)) == Hold ==>
        (lidArm.servo.currentAngle == old(lidArm.servo.currentAngle) && lidArm.servo.log == old(lidArm.servo.log))
      ensures TickAction(old(lidArm.IsOpen()), prox, currentSwitch, old(count), old(lastSwitch)) == SwitchOffAndClose ==>
        (&& switchArm.servo.currentAngle == DefaultRetractedAngle as real
         && switchArm.servo.log == old(switchArm.servo.log)
            + SmoothMove(old(switchArm.servo.currentAngle), DefaultExtendedAngle as real, 500, ArmSteps)
            + SmoothMove(DefaultExtendedAngle as real, DefaultRetractedAngle as real, 500, ArmSteps))
      ensures TickAction(old(lidArm.IsOpen()), prox, currentSwitch, old(count), old(lastSwitch)) != SwitchOffAndClose ==>
        (switchArm.servo.currentAngle == old(switchArm.servo.currentAngle) && switchArm.servo.log == old(switchArm.servo.log))
      ensures count == DecisionCount(old(count), old(lastSwitch), currentSwitch) - 1
      ensures lastSwitch == Some(currentSwitch)
    {
      if currentSwitch && !Truthy(lastSwitch) {
        count := EdgeCount;
      }
      if lidArm.IsOpen() {
        if prox < NearBelow && count < 0 {
          lidArm.Close();
        } else if currentSwitch && count <= 0 {
          switchArm.Extend();
          switchArm.Retract(100.0);
          lidArm.Close();
        }
      } else if prox > NearBelow || count == 0 {
        lidArm.Open();
      }
      count := count - 1;
      lastSwitch := Some(currentSwitch);
    }

    /** The endless loop, run over a finite prefix of its readings: the count, the
        remembered reading and the lid's openness follow `CountAfter`, `LastAfter` and
        `LidOpenAfter`, and a switch arm that starts retracted ends retracted. */
    method Run(switches: seq<bool>, proxes: seq<int>)
      requires Valid() && |switches| == |proxes|
      modifies this, lidArm.servo, switchArm.servo
      ensures Valid()
      ensures count == CountAfter(old(count), old(lastSwitch), switches)
      ensures lastSwitch == LastAfter(old(lastSwitch), switches)
      ensures lidArm.IsOpen() == LidOpenAfter(old(lidArm.IsOpen()), old(count), old(lastSwitch), switches, proxes)
      ensures old(switchArm.servo.currentAngle) == DefaultRetractedAngle as real ==>
        switchArm.servo.currentAngle == DefaultRetractedAngle as real
    {
      for i := 0 to |switches|
        invariant Valid()
        invariant count == CountAfter(old(count), old(lastSwitch), switches[..i])
        invariant lastSwitch == LastAfter(old(lastSwitch), switches[..i])
        invariant lidArm.IsOpen() == LidOpenAfter(old(lidArm.IsOpen()), old(count), old(lastSwitch), switches[..i], proxes[..i])
        invariant old(switchArm.servo.currentAngle) == DefaultRetractedAngle as real ==>
          switchArm.servo.currentAngle == DefaultRetractedAngle as real
      {
        assert switches[..i + 1][..i] == switches[..i];
        assert proxes[..i + 1][..i] == proxes[..i];
        Tick(switches[i], proxes[i]);
      }
      assert switches[..|switches|] == switches;
      assert proxes[..|proxes|] == proxes;
    }
  }
}
