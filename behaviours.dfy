/** The ten scripted behaviours of the randomised box driver. The driver's arms are
    addressed only through commands, so its state is the trace it has issued; what
    the servos do follows from replaying that trace. */
module Behaviours {
  import opened Commands

  /** `random.randint(lo, hi)` from a raw draw `u`: inclusive at both ends. */
  function RandInt(lo: int, hi: int, u: nat): (r: int)
    requires lo <= hi
    ensures lo <= r <= hi
  {
    lo + u % (hi - lo + 1)
  }

  /** The values the sensors and the random source hand a behaviour, in the order it
      asks for them: two proximity readings, three switch readings, twelve raw draws. */
  datatype Readings = Readings(firstProximity: int, secondProximity: int, switches: seq<bool>, rolls: seq<nat>)

  predicate WellFormed(r: Readings) {
    |r.switches| == 3 && |r.rolls| == 12
  }

  /** Extend by 100 percent only when the switch reads on. */
  function SwitchOffIfOn(on: bool, durationMs: int): seq<Command> {
    if on then [ArmExtend(100.0, durationMs)] else []
  }

  function PeekabooTrace(proximity: int, on: bool): seq<Command> {
    [LidOpen(50.0, 500), ReadProximity(proximity)]
    + (if proximity < 150 then [LidClose(0.0, 300), Wait(0.5), LidOpen(100.0, 500)] else [LidOpen(100.0, 500)])
    + [ReadSwitch(on)] + SwitchOffIfOn(on, 500)
    + [ArmRetract(100.0, 300), LidClose(0.0, 500)]
  }

  /** The switch is read only when the first proximity reading is not near, and the
      second proximity reading only when it is. */
  function SlowApproachTrace(first: int, second: int, on: bool): seq<Command> {
    [LidOpen(100.0, 1000), ReadProximity(first)]
    + (if first < 100 then
         [ArmExtend(50.0, 1000), ReadProximity(second)]
         + (if second < 120 then [ArmRetract(50.0, 800)] else [ArmExtend(100.0, 500)])
       else [ReadSwitch(on)] + SwitchOffIfOn(on, 800))
    + [ArmRetract(100.0, 500), LidClose(0.0, 700)]
  }

  function QuickThreatTrace(proximity: int, on: bool): seq<Command> {
    [LidOpen(100.0, 300), ReadProximity(proximity)]
    + (if proximity < 120 then
         [ArmExtend(70.0, 300), ArmRetract(70.0, 200), ReadSwitch(on)] + SwitchOffIfOn(on, 300)
       else [ReadSwitch(on)] + SwitchOffIfOn(on, 500))
    + [ArmRetract(100.0, 300), LidClose(0.0, 500)]
  }

  function DoubleFakeoutTrace(proximity: int, on: bool): seq<Command> {
    [LidOpen(100.0, 400), ReadProximity(proximity)]
    + (if proximity < 150 then
         [ArmExtend(50.0, 200), ArmRetract(50.0, 200), Wait(0.3), ArmExtend(80.0, 300), ArmRetract(80.0, 300)]
       else [ReadSwitch(on)] + SwitchOffIfOn(on, 500))
    + [ArmRetract(100.0, 400), LidClose(0.0, 600)]
  }

  function RapidSwitchOffTrace(on: bool): seq<Command> {
    [LidOpen(100.0, 300), ReadSwitch(on)] + SwitchOffIfOn(on, 200) + [ArmRetract(100.0, 100), LidClose(0.0, 300)]
  }

  /** One pass of the insistent loop: read, extend if on, retract, pause. */
  function InsistentRound(on: bool): seq<Command> {
    [ReadSwitch(on)] + SwitchOffIfOn(on, 200) + [ArmRetract(100.0, 200), Wait(0.2)]
  }

  /** The first `n` passes of the insistent loop. */
  function InsistentRounds(switches: seq<bool>, n: nat): seq<Command>
    requires n <= |switches|
  {
    if n == 0 then [] else InsistentRounds(switches, n - 1) + InsistentRound(switches[n - 1])
  }

  function InsistentTrace(switches: seq<bool>): seq<Command>
    requires |switches| == 3
  {
    [LidOpen(100.0, 400)] + InsistentRounds(switches, 3) + [LidClose(0.0, 500)]
  }

  /** `and` short-circuits: the switch is read only after a near proximity reading. */
  function LongPauseTrace(proximity: int, on: bool): seq<Command> {
    [LidOpen(100.0, 500), Wait(2.0), ReadProximity(proximity)]
    + (if proximity < 120 then
         [ReadSwitch(on)] + (if on then [ArmExtend(100.0, 600)] else [LidClose(0.0, 1000)])
       else [LidClose(0.0, 1000)])
  }

  /** Round `i` of the random lid loop draws the open percentage, the open time, the
      close percentage and the close time, in that order. */
  function RandomLidRound(rolls: seq<nat>, i: nat): seq<Command>
    requires 4 * i + 3 < |rolls|
  {
    [LidOpen(RandInt(50, 100, rolls[4 * i]) as real, RandInt(200, 500, rolls[4 * i + 1])),
     LidClose(RandInt(0, 50, rolls[4 * i + 2]) as real, RandInt(200, 500, rolls[4 * i + 3]))]
  }

  function RandomLidRounds(rolls: seq<nat>, n: nat): (cmds: seq<Command>)
    requires 4 * n <= |rolls|
    ensures |cmds| == 2 * n
  {
    if n == 0 then [] else RandomLidRounds(rolls, n - 1) + RandomLidRound(rolls, n - 1)
  }

  function RandomLidTrace(rolls: seq<nat>, on: bool): seq<Command>
    requires |rolls| == 12
  {
    RandomLidRounds(rolls, 3) + [ReadSwitch(on)] + SwitchOffIfOn(on, 500) + [ArmRetract(100.0, 300), LidClose(0.0, 600)]
  }

  function SlowRetractTrace(on: bool): seq<Command> {
    [LidOpen(100.0, 500), ReadSwitch(on)] + SwitchOffIfOn(on, 1000) + [Wait(0.5), ArmRetract(100.0, 1200), LidClose(0.0, 700)]
  }

  /** `n` half extensions, each retracted at once. */
  function Feints(n: nat): (cmds: seq<Command>)
    ensures |cmds| == 2 * n
  {
    if n == 0 then [] else Feints(n - 1) + [ArmExtend(50.0, 200), ArmRetract(50.0, 200)]
  }

  function TripleFakeTrace(on: bool): seq<Command> {
    [LidOpen(100.0, 300)] + Feints(3) + [ReadSwitch(on)] + SwitchOffIfOn(on, 300) + [ArmRetract(100.0, 300), LidClose(0.0, 400)]
  }

  const BehaviourCount := 10

  /** Behaviour `i` in the order of the behaviour list, fed from `r`. */
  function Behaviour(i: nat, r: Readings): seq<Command>
    requires i < BehaviourCount && WellFormed(r)
  {
    match i
    case 0 => PeekabooTrace(r.firstProximity, r.switches[0])
    case 1 => SlowApproachTrace(r.firstProximity, r.secondProximity, r.switches[0])
    case 2 => QuickThreatTrace(r.firstProximity, r.switches[0])
    case 3 => DoubleFakeoutTrace(r.firstProximity, r.switches[0])
    case 4 => RapidSwitchOffTrace(r.switches[0])
    case 5 => InsistentTrace(r.switches)
    case 6 => LongPauseTrace(r.firstProximity, r.switches[0])
    case 7 => RandomLidTrace(r.rolls, r.switches[0])
    case 8 => SlowRetractTrace(r.switches[0])
    case 9 => TripleFakeTrace(r.switches[0])
  }

  predicate IsSwitchRead(c: Command) {
    c.ReadSwitch?
  }

  predicate IsRetract(c: Command) {
    c.ArmRetract?
  }

  lemma CountSingle(c: Command, p: Command -> bool)
    ensures Count([c], p) == if p(c) then 1 else 0
  {
    assert [c][..0] == [];
  }

  lemma CountPair(a: Command, b: Command, p: Command -> bool)
    ensures Count([a, b], p) == (if p(a) then 1 else 0) + (if p(b) then 1 else 0)
  {
    assert [a, b] == [a] + [b];
    CountAppend([a], [b], p);
    CountSingle(a, p);
    CountSingle(b, p);
  }

  lemma SwitchOffIfOnCount(on: bool, durationMs: int, p: Command -> bool)
    ensures Count(SwitchOffIfOn(on, durationMs), p) == if on && p(ArmExtend(100.0, durationMs)) then 1 else 0
  {
    if on {
      CountSingle(ArmExtend(100.0, durationMs), p);
    }
  }

  /** Every behaviour starts by opening the lid. */
  lemma BehaviourOpensFirst(i: nat, r: Readings)
    requires i < BehaviourCount && WellFormed(r)
    ensures |Behaviour(i, r)| > 0 && Behaviour(i, r)[0].LidOpen?
  {
    if i == 7 {
      RandomLidRoundsShape(r.rolls, 3);
    }
  }

  /** Every behaviour but the long pause ends by "closing" the lid by 0 percent. */
  lemma BehaviourClosesLast(i: nat, r: Readings)
    requires i < BehaviourCount && WellFormed(r) && i != 6
    ensures var t := Behaviour(i, r);
            |t| > 0 && t[|t| - 1].LidClose? && t[|t| - 1].percentage == 0.0
  {
  }

  /** The long pause closes the lid unless a near hand and an "on" switch send the arm
      out; then the trace ends on that extension and never touches the lid again or
      retracts the arm. */
  lemma LongPauseEnds(proximity: int, on: bool)
    ensures var t := LongPauseTrace(proximity, on);
            && (proximity < 120 && on ==>
                  t[|t| - 1] == ArmExtend(100.0, 600) && Count(t, IsRetract) == 0 && Count(t, IsLidMove) == 1)
            && (!(proximity < 120 && on) ==> t[|t| - 1] == LidClose(0.0, 1000))
  {
    var t := LongPauseTrace(proximity, on);
    if proximity < 120 && on {
      var head := [LidOpen(100.0, 500), Wait(2.0), ReadProximity(proximity)];
      var tail := [ReadSwitch(on), ArmExtend(100.0, 600)];
      assert t == head + tail;
      assert head == [LidOpen(100.0, 500)] + [Wait(2.0), ReadProximity(proximity)];
      CountAppend(head, tail, IsRetract);
      CountAppend(head, tail, IsLidMove);
      CountAppend([LidOpen(100.0, 500)], [Wait(2.0), ReadProximity(proximity)], IsRetract);
      CountAppend([LidOpen(100.0, 500)], [Wait(2.0), ReadProximity(proximity)], IsLidMove);
      CountSingle(LidOpen(100.0, 500), IsRetract);
      CountSingle(LidOpen(100.0, 500), IsLidMove);
      CountPair(Wait(2.0), ReadProximity(proximity), IsRetract);
      CountPair(Wait(2.0), ReadProximity(proximity), IsLidMove);
      CountPair(ReadSwitch(on), ArmExtend(100.0, 600), IsRetract);
      CountPair(ReadSwitch(on), ArmExtend(100.0, 600), IsLidMove);
    }
  }

  /** A trace whose last command closes by 0 percent leaves the lid at its open angle,
      whatever came before. */
  lemma ClosedByZeroLeavesOpen(rig: Rig, start: real, xs: seq<Command>, t: seq<Command>)
    requires |t| > 0 && t[|t| - 1].LidClose? && t[|t| - 1].percentage == 0.0
    ensures LidRun(rig, start, xs + t) == rig.openAngle as real
  {
    var last := t[|t| - 1];
    assert xs + t == (xs + t[..|t| - 1]) + [last];
    LidSnoc(rig, start, xs + t[..|t| - 1], last);
    LidTargetEnds(rig, last.durationMs);
  }

  /** Since closing by 0 percent is opening fully, every behaviour that ends with
      `close_lid(0, ...)` leaves the lid fully open. */
  lemma BehaviourLeavesLidOpen(rig: Rig, start: real, xs: seq<Command>, i: nat, r: Readings)
    requires i < BehaviourCount && WellFormed(r)
    requires i == 6 ==> !(r.firstProximity < 120 && r.switches[0])
    ensures LidRun(rig, start, xs + Behaviour(i, r)) == rig.openAngle as real
  {
    if i == 6 {
      LongPauseEnds(r.firstProximity, r.switches[0]);
    } else {
      BehaviourClosesLast(i, r);
    }
    ClosedByZeroLeavesOpen(rig, start, xs, Behaviour(i, r));
  }

  /** The switch branch of the long pause leaves the arm fully extended. */
  lemma LongPauseLeavesArmExtended(rig: Rig, start: real, xs: seq<Command>, proximity: int)
    requires proximity < 120
    ensures ArmRun(rig, start, xs + LongPauseTrace(proximity, true)) == rig.extendedAngle as real
  {
    var t := LongPauseTrace(proximity, true);
    assert xs + t == (xs + t[..|t| - 1]) + [ArmExtend(100.0, 600)];
    ArmSnoc(rig, start, xs + t[..|t| - 1], ArmExtend(100.0, 600));
    ArmTargetEnds(rig, 600);
  }

  /** The rapid switch-off extends the arm exactly when the switch reads on, and
      always retracts and closes afterwards. */
  lemma RapidSwitchOffExtendsIffOn(on: bool)
    ensures var t := RapidSwitchOffTrace(on);
            && (Count(t, IsExtend) > 0 <==> on)
            && t[|t| - 2] == ArmRetract(100.0, 100) && t[|t| - 1] == LidClose(0.0, 300)
  {
    var head := [LidOpen(100.0, 300), ReadSwitch(on)];
    var mid := SwitchOffIfOn(on, 200);
    var tail := [ArmRetract(100.0, 100), LidClose(0.0, 300)];
    CountAppend(head + mid, tail, IsExtend);
    CountAppend(head, mid, IsExtend);
    CountPair(LidOpen(100.0, 300), ReadSwitch(on), IsExtend);
    SwitchOffIfOnCount(on, 200, IsExtend);
    CountPair(ArmRetract(100.0, 100), LidClose(0.0, 300), IsExtend);
  }

  /** How many readings say "on". */
  function Ons(switches: seq<bool>): nat {
    if switches == [] then 0 else Ons(switches[..|switches| - 1]) + (if switches[|switches| - 1] then 1 else 0)
  }

  lemma InsistentRoundCounts(on: bool)
    ensures Count(InsistentRound(on), IsSwitchRead) == 1
    ensures Count(InsistentRound(on), IsRetract) == 1
    ensures Count(InsistentRound(on), IsExtend) == (if on then 1 else 0)
    ensures Count(InsistentRound(on), IsLidMove) == 0
  {
    var head := [ReadSwitch(on)];
    var mid := SwitchOffIfOn(on, 200);
    var tail := [ArmRetract(100.0, 200), Wait(0.2)];
    CountAppend(head + mid, tail, IsSwitchRead);
    CountAppend(head + mid, tail, IsRetract);
    CountAppend(head + mid, tail, IsExtend);
    CountAppend(head + mid, tail, IsLidMove);
    CountAppend(head, mid, IsSwitchRead);
    CountAppend(head, mid, IsRetract);
    CountAppend(head, mid, IsExtend);
    CountAppend(head, mid, IsLidMove);
    CountSingle(ReadSwitch(on), IsSwitchRead);
    CountSingle(ReadSwitch(on), IsRetract);
    CountSingle(ReadSwitch(on), IsExtend);
    CountSingle(ReadSwitch(on), IsLidMove);
    SwitchOffIfOnCount(on, 200, IsSwitchRead);
    SwitchOffIfOnCount(on, 200, IsRetract);
    SwitchOffIfOnCount(on, 200, IsExtend);
    SwitchOffIfOnCount(on, 200, IsLidMove);
    CountPair(ArmRetract(100.0, 200), Wait(0.2), IsSwitchRead);
    CountPair(ArmRetract(100.0, 200), Wait(0.2), IsRetract);
    CountPair(ArmRetract(100.0, 200), Wait(0.2), IsExtend);
    CountPair(ArmRetract(100.0, 200), Wait(0.2), IsLidMove);
  }

  lemma {:induction false} InsistentRoundsCounts(switches: seq<bool>, n: nat)
    requires n <= |switches|
    ensures Count(InsistentRounds(switches, n), IsSwitchRead) == n
    ensures Count(InsistentRounds(switches, n), IsRetract) == n
    ensures Count(InsistentRounds(switches, n), IsExtend) == Ons(switches[..n])
    ensures Count(InsistentRounds(switches, n), IsLidMove) == 0
  {
    if n > 0 {
      InsistentRoundsCounts(switches, n - 1);
      InsistentRoundCounts(switches[n - 1]);
      var before := InsistentRounds(switches, n - 1);
      var round := InsistentRound(switches[n - 1]);
      CountAppend(before, round, IsSwitchRead);
      CountAppend(before, round, IsRetract);
      CountAppend(before, round, IsExtend);
      CountAppend(before, round, IsLidMove);
      assert switches[..n][..n - 1] == switches[..n - 1];
    }
  }

  /** The insistent behaviour reads the switch and retracts exactly three times, extends
      once per "on" reading, and moves the lid exactly twice: open first, close last. */
  lemma InsistentShape(switches: seq<bool>)
    requires |switches| == 3
    ensures var t := InsistentTrace(switches);
            && Count(t, IsSwitchRead) == 3 && Count(t, IsRetract) == 3
            && Count(t, IsExtend) == Ons(switches)
            && Count(t, IsLidMove) == 2
            && t[0] == LidOpen(100.0, 400) && t[|t| - 1] == LidClose(0.0, 500)
  {
    var rounds := InsistentRounds(switches, 3);
    InsistentRoundsCounts(switches, 3);
    assert switches[..3] == switches;
    var ps := [IsSwitchRead, IsRetract, IsExtend, IsLidMove];
    forall p | p in ps
      ensures Count(InsistentTrace(switches), p) == Count(rounds, p) + (if p(LidOpen(100.0, 400)) then 1 else 0) + (if p(LidClose(0.0, 500)) then 1 else 0)
    {
      CountAppend([LidOpen(100.0, 400)] + rounds, [LidClose(0.0, 500)], p);
      CountAppend([LidOpen(100.0, 400)], rounds, p);
      CountSingle(LidOpen(100.0, 400), p);
      CountSingle(LidClose(0.0, 500), p);
    }
  }

  /** `n` feints are `n` half extensions and `n` half retractions, alternating,
      and nothing else. */
  lemma {:induction false} FeintsShape(n: nat)
    ensures forall k :: 0 <= k < |Feints(n)| ==>
              Feints(n)[k] == if k % 2 == 0 then ArmExtend(50.0, 200) else ArmRetract(50.0, 200)
    ensures Count(Feints(n), IsExtend) == n
    ensures Count(Feints(n), IsSwitchRead) == 0
  {
    if n > 0 {
      FeintsShape(n - 1);
      var pair := [ArmExtend(50.0, 200), ArmRetract(50.0, 200)];
      CountAppend(Feints(n - 1), pair, IsExtend);
      CountAppend(Feints(n - 1), pair, IsSwitchRead);
      CountPair(ArmExtend(50.0, 200), ArmRetract(50.0, 200), IsExtend);
      CountPair(ArmExtend(50.0, 200), ArmRetract(50.0, 200), IsSwitchRead);
      forall k | 0 <= k < |Feints(n)|
        ensures Feints(n)[k] == if k % 2 == 0 then ArmExtend(50.0, 200) else ArmRetract(50.0, 200)
      {
        if k >= |Feints(n - 1)| {
          assert Feints(n)[k] == pair[k - 2 * (n - 1)];
        } else {
          assert Feints(n)[k] == Feints(n - 1)[k];
        }
      }
    }
  }

  /** The triple fake makes its three feints right after opening, then reads the
      switch, once. */
  lemma TripleFakeShape(on: bool)
    ensures var t := TripleFakeTrace(on);
            t[1..7] == Feints(3) && t[7] == ReadSwitch(on) && Count(t, IsSwitchRead) == 1
  {
    var t := TripleFakeTrace(on);
    var head := [LidOpen(100.0, 300)];
    var feints := Feints(3);
    var mid := [ReadSwitch(on)] + SwitchOffIfOn(on, 300);
    var tail := [ArmRetract(100.0, 300), LidClose(0.0, 400)];
    assert t == head + feints + mid + tail;
    assert t[1..7] == feints;
    FeintsShape(3);
    CountAppend(head + feints + mid, tail, IsSwitchRead);
    CountAppend(head + feints, mid, IsSwitchRead);
    CountAppend(head, feints, IsSwitchRead);
    CountAppend([ReadSwitch(on)], SwitchOffIfOn(on, 300), IsSwitchRead);
    CountSingle(LidOpen(100.0, 300), IsSwitchRead);
    CountSingle(ReadSwitch(on), IsSwitchRead);
    SwitchOffIfOnCount(on, 300, IsSwitchRead);
    CountPair(ArmRetract(100.0, 300), LidClose(0.0, 400), IsSwitchRead);
  }

  /** A command the random lid loop may issue. */
  predicate InLidRollRange(c: Command) {
    && IsLidMove(c)
    && 200 <= c.durationMs <= 500
    && (c.LidOpen? ==> 50.0 <= c.percentage <= 100.0)
    && (c.LidClose? ==> 0.0 <= c.percentage <= 50.0)
  }

  /** The random lid loop alternates open and close, starting with an open, and every
      percentage and time lies in its `randint` range. */
  lemma {:induction false} RandomLidRoundsShape(rolls: seq<nat>, n: nat)
    requires 4 * n <= |rolls|
    ensures forall k :: 0 <= k < |RandomLidRounds(rolls, n)| ==>
              InLidRollRange(RandomLidRounds(rolls, n)[k]) && (RandomLidRounds(rolls, n)[k].LidOpen? <==> k % 2 == 0)
  {
    if n > 0 {
      RandomLidRoundsShape(rolls, n - 1);
      var before := RandomLidRounds(rolls, n - 1);
      var round := RandomLidRound(rolls, n - 1);
      forall k | 0 <= k < |RandomLidRounds(rolls, n)|
        ensures InLidRollRange(RandomLidRounds(rolls, n)[k]) && (RandomLidRounds(rolls, n)[k].LidOpen? <==> k % 2 == 0)
      {
        if k >= |before| {
          assert RandomLidRounds(rolls, n)[k] == round[k - |before|];
        } else {
          assert RandomLidRounds(rolls, n)[k] == before[k];
        }
      }
    }
  }

  lemma Join3(t: seq<Command>, a: seq<Command>, b: seq<Command>, c: seq<Command>)
    ensures t + a + b + c == t + (a + b + c)
  {
  }

  lemma Join4(t: seq<Command>, a: seq<Command>, b: seq<Command>, c: seq<Command>, d: seq<Command>)
    ensures t + a + b + c + d == t + (a + b + c + d)
  {
  }

  /** The randomised driver. Its arms are reached only through the commands it issues,
      so `trace` is all the state it has. */
  class UselessBox {
    var trace: seq<Command>

    constructor ()
      ensures trace == []
    {
      trace := [];
    }

    method OpenLid(percentage: real, timeMs: int)
      modifies this
      ensures trace == old(trace) + [LidOpen(percentage, timeMs)]
    {
      trace := trace + [LidOpen(percentage, timeMs)];
    }

    method CloseLid(percentage: real, timeMs: int)
      modifies this
      ensures trace == old(trace) + [LidClose(percentage, timeMs)]
    {
      trace := trace + [LidClose(percentage, timeMs)];
    }

    /** `reading` is what the sensor reports; the raw value is returned unclassified. */
    method GetProximity(reading: int) returns (value: int)
      modifies this
      ensures value == reading && trace == old(trace) + [ReadProximity(reading)]
    {
      value := reading;
      trace := trace + [ReadProximity(reading)];
    }

    /** Takes time first and percentage second, and hands them to the arm the other way round. */
    method SwitchArmToOff(timeMs: int, percentage: real)
      modifies this
      ensures trace == old(trace) + [ArmExtend(percentage, timeMs)]
    {
      trace := trace + [ArmExtend(percentage, timeMs)];
    }

    /** Takes time first and percentage second, and hands them to the arm the other way round. */
    method RetractArm(timeMs: int, percentage: real)
      modifies this
      ensures trace == old(trace) + [ArmRetract(percentage, timeMs)]
    {
      trace := trace + [ArmRetract(percentage, timeMs)];
    }

    method GetSwitch(reading: bool) returns (on: bool)
      modifies this
      ensures on == reading && trace == old(trace) + [ReadSwitch(reading)]
    {
      on := reading;
      trace := trace + [ReadSwitch(reading)];
    }

    method Sleep(seconds: real)
      modifies this
      ensures trace == old(trace) + [Wait(seconds)]
    {
      trace := trace + [Wait(seconds)];
    }

    method Peekaboo(proximity: int, switchReading: bool)
      modifies this
      ensures trace == old(trace) + PeekabooTrace(proximity, switchReading)
    {
      OpenLid(50.0, 500);
      var near := GetProximity(proximity);
      ghost var head := [LidOpen(50.0, 500), ReadProximity(proximity)];
      assert trace == old(trace) + head;
      ghost var look: seq<Command> := if proximity < 150 then [LidClose(0.0, 300), Wait(0.5), LidOpen(100.0, 500)] else [LidOpen(100.0, 500)];
      if near < 150 {
        CloseLid(0.0, 300);
        Sleep(0.5);
        OpenLid(100.0, 500);
      } else {
        OpenLid(100.0, 500);
      }
      ConcatAssoc(old(trace), head, look);
      assert trace == old(trace) + (head + look);
      var on := GetSwitch(switchReading);
      ghost var late := trace;
      if on {
        SwitchArmToOff(500, 100.0);
      }
      assert trace == late + SwitchOffIfOn(switchReading, 500);
      ghost var last := trace;
      RetractArm(300, 100.0);
      CloseLid(0.0, 500);
      assert trace == last + [ArmRetract(100.0, 300), LidClose(0.0, 500)];
      Join4(old(trace), head + look, [ReadSwitch(switchReading)], SwitchOffIfOn(switchReading, 500), [ArmRetract(100.0, 300), LidClose(0.0, 500)]);
    }

    method SlowApproach(firstProximity: int, secondProximity: int, switchReading: bool)
      modifies this
      ensures trace == old(trace) + SlowApproachTrace(firstProximity, secondProximity, switchReading)
    {
      OpenLid(100.0, 1000);
      var proximity := GetProximity(firstProximity);
      ghost var mid := trace;
      ghost var middle := if firstProximity < 100 then
           [ArmExtend(50.0, 1000), ReadProximity(secondProximity)]
           + (if secondProximity < 120 then [ArmRetract(50.0, 800)] else [ArmExtend(100.0, 500)])
         else [ReadSwitch(switchReading)] + SwitchOffIfOn(switchReading, 800);
      if proximity < 100 {
        SwitchArmToOff(1000, 50.0);
        var again := GetProximity(secondProximity);
        if again < 120 {
          RetractArm(800, 50.0);
        } else {
          SwitchArmToOff(500, 100.0);
        }
      } else {
        var on := GetSwitch(switchReading);
        if on {
          SwitchArmToOff(800, 100.0);
        }
      }
      assert trace == mid + middle;
      RetractArm(500, 100.0);
      CloseLid(0.0, 700);
    }

    method QuickThreat(proximity: int, switchReading: bool)
      modifies this
      ensures trace == old(trace) + QuickThreatTrace(proximity, switchReading)
    {
      OpenLid(100.0, 300);
      var near := GetProximity(proximity);
      ghost var mid := trace;
      ghost var middle := if proximity < 120 then
           [ArmExtend(70.0, 300), ArmRetract(70.0, 200), ReadSwitch(switchReading)] + SwitchOffIfOn(switchReading, 300)
         else [ReadSwitch(switchReading)] + SwitchOffIfOn(switchReading, 500);
      if near < 120 {
        SwitchArmToOff(300, 70.0);
        RetractArm(200, 70.0);
        var on := GetSwitch(switchReading);
        if on {
          SwitchArmToOff(300, 100.0);
        }
      } else {
        var on := GetSwitch(switchReading);
        if on {
          SwitchArmToOff(500, 100.0);
        }
      }
      assert trace == mid + middle;
      ghost var late := trace;
      RetractArm(300, 100.0);
      CloseLid(0.0, 500);
      assert trace == late + [ArmRetract(100.0, 300), LidClose(0.0, 500)];
      Join3(old(trace), [LidOpen(100.0, 300), ReadProximity(proximity)], middle, [ArmRetract(100.0, 300), LidClose(0.0, 500)]);
    }

    method DoubleFakeout(proximity: int, switchReading: bool)
      modifies this
      ensures trace == old(trace) + DoubleFakeoutTrace(proximity, switchReading)
    {
      OpenLid(100.0, 400);
      var near := GetProximity(proximity);
      ghost var mid := trace;
      ghost var middle := if proximity < 150 then
           [ArmExtend(50.0, 200), ArmRetract(50.0, 200), Wait(0.3), ArmExtend(80.0, 300), ArmRetract(80.0, 300)]
         else [ReadSwitch(switchReading)] + SwitchOffIfOn(switchReading, 500);
      if near < 150 {
        SwitchArmToOff(200, 50.0);
        RetractArm(200, 50.0);
        Sleep(0.3);
        SwitchArmToOff(300, 80.0);
        RetractArm(300, 80.0);
      } else {
        var on := GetSwitch(switchReading);
        if on {
          SwitchArmToOff(500, 100.0);
        }
      }
      assert trace == mid + middle;
      RetractArm(400, 100.0);
      CloseLid(0.0, 600);
    }

    method RapidSwitchOff(switchReading: bool)
      modifies this
      ensures trace == old(trace) + RapidSwitchOffTrace(switchReading)
    {
      OpenLid(100.0, 300);
      var on := GetSwitch(switchReading);
      if on {
        SwitchArmToOff(200, 100.0);
      }
      RetractArm(100, 100.0);
      CloseLid(0.0, 300);
    }

    method InsistentSwitch(switchReadings: seq<bool>)
      requires |switchReadings| == 3
      modifies this
      ensures trace == old(trace) + InsistentTrace(switchReadings)
    {
      OpenLid(100.0, 400);
      for i := 0 to 3
        invariant trace == old(trace) + [LidOpen(100.0, 400)] + InsistentRounds(switchReadings, i)
      {
        var on := GetSwitch(switchReadings[i]);
        if on {
          SwitchArmToOff(200, 100.0);
        }
        RetractArm(200, 100.0);
        Sleep(0.2);
      }
      CloseLid(0.0, 500);
    }

    method LongPause(proximity: int, switchReading: bool)
      modifies this
      ensures trace == old(trace) + LongPauseTrace(proximity, switchReading)
    {
      OpenLid(100.0, 500);
      Sleep(2.0);
      var near := GetProximity(proximity);
      var fire := false;
      if near < 120 {
        fire := GetSwitch(switchReading);
      }
      if fire {
        SwitchArmToOff(600, 100.0);
      } else {
        CloseLid(0.0, 1000);
      }
    }

    /** `rolls` are the raw draws behind the twelve `randint` calls, in call order. */
    method RandomLidMovement(rolls: seq<nat>, switchReading: bool)
      requires |rolls| == 12
      modifies this
      ensures trace == old(trace) + RandomLidTrace(rolls, switchReading)
    {
      for i := 0 to 3
        invariant trace == old(trace) + RandomLidRounds(rolls, i)
      {
        OpenLid(RandInt(50, 100, rolls[4 * i]) as real, RandInt(200, 500, rolls[4 * i + 1]));
        CloseLid(RandInt(0, 50, rolls[4 * i + 2]) as real, RandInt(200, 500, rolls[4 * i + 3]));
      }
      var on := GetSwitch(switchReading);
      if on {
        SwitchArmToOff(500, 100.0);
      }
      RetractArm(300, 100.0);
      CloseLid(0.0, 600);
    }

    method SlowRetract(switchReading: bool)
      modifies this
      ensures trace == old(trace) + SlowRetractTrace(switchReading)
    {
      OpenLid(100.0, 500);
      var on := GetSwitch(switchReading);
      if on {
        SwitchArmToOff(1000, 100.0);
      }
      Sleep(0.5);
      RetractArm(1200, 100.0);
      CloseLid(0.0, 700);
    }

    method TripleFake(switchReading: bool)
      modifies this
      ensures trace == old(trace) + TripleFakeTrace(switchReading)
    {
      OpenLid(100.0, 300);
      for i := 0 to 3
        invariant trace == old(trace) + [LidOpen(100.0, 300)] + Feints(i)
      {
        SwitchArmToOff(200, 50.0);
        RetractArm(200, 50.0);
      }
      var on := GetSwitch(switchReading);
      if on {
        SwitchArmToOff(300, 100.0);
      }
      RetractArm(300, 100.0);
      CloseLid(0.0, 400);
    }

    /** `random.choice` over the ten behaviours, from a raw draw: exactly one runs. */
    method RandomBehaviour(draw: nat, r: Readings)
      requires WellFormed(r)
      modifies this
      ensures trace == old(trace) + Behaviour(draw % BehaviourCount, r)
    {
      var choice := draw % BehaviourCount;
      if choice == 0 {
        Peekaboo(r.firstProximity, r.switches[0]);
      } else if choice == 1 {
        SlowApproach(r.firstProximity, r.secondProximity, r.switches[0]);
      } else if choice == 2 {
        QuickThreat(r.firstProximity, r.switches[0]);
      } else if choice == 3 {
        DoubleFakeout(r.firstProximity, r.switches[0]);
      } else if choice == 4 {
        RapidSwitchOff(r.switches[0]);
      } else if choice == 5 {
        InsistentSwitch(r.switches);
      } else if choice == 6 {
        LongPause(r.firstProximity, r.switches[0]);
      } else if choice == 7 {
        RandomLidMovement(r.rolls, r.switches[0]);
      } else if choice == 8 {
        SlowRetract(r.switches[0]);
      } else {
        TripleFake(r.switches[0]);
      }
    }
  }
}
