/** The on-board LED: a logical on/off flag over a pin wired inverted (0 lights the flag's "on"). */
module Indicator {

  /** The pin level that represents a logical state: the wiring is inverted. */
  function PinLevel(on: bool): (level: int)
    ensures level == 0 <==> on
    ensures level == 1 <==> !on
  {
    if on then 0 else 1
  }

  class Led {
    /** Logical state: true means on. */
    var state: bool
    /** Every value written to the pin, oldest first. */
    var pinWrites: seq<int>

    /** The pin was never written while the flag says off, or its last value is the level of the flag. */
    ghost predicate Valid()
      reads this
    {
      (pinWrites == [] ==> !state) && (pinWrites != [] ==> pinWrites[|pinWrites| - 1] == PinLevel(state))
    }

    /** Starts logically off without touching the pin. */
    constructor ()
      ensures !state && pinWrites == [] && Valid()
    {
      state := false;
      pinWrites := [];
    }

    method On()
      modifies this
      ensures state && pinWrites == old(pinWrites) + [0]
      ensures Valid()
    {
      pinWrites := pinWrites + [0];
      state := true;
    }

    method Off()
      modifies this
      ensures !state && pinWrites == old(pinWrites) + [1]
      ensures Valid()
    {
      pinWrites := pinWrites + [1];
      state := false;
    }

    /** Off when on and on when off: the flag is negated and its new level written. */
    method Toggle()
      modifies this
      ensures state == !old(state)
      ensures pinWrites == old(pinWrites) + [PinLevel(!old(state))]
      ensures Valid()
    {
      if state {
        Off();
      } else {
        On();
      }
    }
  }
}
