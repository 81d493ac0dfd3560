/**
 * Switches and indicator LEDs on port PT1AD1 (SCI/lib/swled.c): bits 0-4
 * are the five push buttons, bits 5-7 the red, yellow and green LEDs.
 * PT1AD1 is a `Mask`; the switch bits are driven by the hardware, so every
 * contract below holds for whatever switch bits the register shows.
 */
module SwitchLed {
  import opened Bits

  // eSWLLED (lib/swled.h)
  const Red: Mask := {7}
  const Yellow: Mask := {6}
  const Green: Mask := {5}
  const AllLeds: Mask := {5, 6, 7}

  // eSWLSwitch (lib/swled.h)
  const Middle: Mask := {0}
  const Right: Mask := {1}
  const Down: Mask := {2}
  const Left: Mask := {3}
  const Up: Mask := {4}
  const AnySwitch: Mask := {0, 1, 2, 3, 4}

  /** The header's mask values. */
  lemma MaskValues()
    ensures ByteValue(Red) == 0x80 && ByteValue(Yellow) == 0x40 && ByteValue(Green) == 0x20
    ensures ByteValue(AllLeds) == 0xE0
    ensures ByteValue(Middle) == 0x01 && ByteValue(Right) == 0x02 && ByteValue(Down) == 0x04
    ensures ByteValue(Left) == 0x08 && ByteValue(Up) == 0x10 && ByteValue(AnySwitch) == 0x1F
  {
  }

  /** The switch/LED port and the switch state SWLSwitchTransition last recorded. */
  class Board {
    /** PT1AD1: switch inputs in bits 0-4, LED outputs in bits 5-7. */
    var pt1ad1: Mask
    /** DDR1AD1 data-direction register. */
    var ddr1ad1: Mask
    /** ATD1DIEN1 digital-input enable register. */
    var atd1dien1: Mask
    /** The static `lastStates` of SWLSwitchTransition. */
    var lastStates: Mask

    /** Power-up: the port shows `pins`, the static starts at 0. */
    constructor (pins: Mask)
      ensures pt1ad1 == pins && ddr1ad1 == {} && atd1dien1 == {} && lastStates == {}
    {
      pt1ad1 := pins;
      ddr1ad1 := {};
      atd1dien1 := {};
      lastStates := {};
    }

    /** The switch bits the port shows now. */
    function Switches(): Mask
      reads this
    {
      pt1ad1 * AnySwitch
    }

    /** SWLInit: LEDs off, switch bits kept, LEDs outputs, switch inputs enabled. */
    method Init()
      modifies this
      ensures pt1ad1 == old(pt1ad1) - AllLeds
      ensures ddr1ad1 == AllLeds
      ensures atd1dien1 == old(atd1dien1) + AnySwitch
      ensures lastStates == old(lastStates)
    {
      pt1ad1 := pt1ad1 * AnySwitch;
      ddr1ad1 := AllLeds;
      atd1dien1 := atd1dien1 + AnySwitch;
    }

    /** SWLRead: the port bits selected by the mask, and no others. */
    method Read(mask: Mask) returns (r: Mask)
      ensures r <= mask
      ensures forall b :: b in mask ==> (b in r <==> b in pt1ad1)
    {
      r := pt1ad1 * mask;
    }

    /** SWLSet: the mask bits go high, every other bit keeps its value. */
    method Set(mask: Mask)
      modifies this
      ensures pt1ad1 == old(pt1ad1) + mask
      ensures mask !! AnySwitch ==> Switches() == old(Switches())
      ensures mask <= pt1ad1
      ensures forall b :: b !in mask ==> (b in pt1ad1 <==> b in old(pt1ad1))
      ensures ddr1ad1 == old(ddr1ad1) && atd1dien1 == old(atd1dien1) && lastStates == old(lastStates)
    {
      pt1ad1 := pt1ad1 + mask;
    }

    /** SWLClear: the mask bits go low, every other bit keeps its value. */
    method Clear(mask: Mask)
      modifies this
      ensures pt1ad1 == old(pt1ad1) - mask
      ensures mask !! AnySwitch ==> Switches() == old(Switches())
      ensures mask !! pt1ad1
      ensures forall b :: b !in mask ==> (b in pt1ad1 <==> b in old(pt1ad1))
      ensures ddr1ad1 == old(ddr1ad1) && atd1dien1 == old(atd1dien1) && lastStates == old(lastStates)
    {
      pt1ad1 := pt1ad1 - mask;
    }

    /** SWLToggle: the mask bits are inverted, every other bit keeps its value. */
    method Toggle(mask: Mask)
      modifies this
      ensures pt1ad1 == (old(pt1ad1) - mask) + (mask - old(pt1ad1))
      ensures mask !! AnySwitch ==> Switches() == old(Switches())
      ensures forall b :: b in mask ==> (b in pt1ad1 <==> b !in old(pt1ad1))
      ensures forall b :: b !in mask ==> (b in pt1ad1 <==> b in old(pt1ad1))
      ensures ddr1ad1 == old(ddr1ad1) && atd1dien1 == old(atd1dien1) && lastStates == old(lastStates)
    {
      pt1ad1 := (pt1ad1 - mask) + (mask - pt1ad1);
    }

    /** SWLPressed: 1 when ANY bit of `button` is high, otherwise 0. */
    method Pressed(button: Mask) returns (r: nat)
      ensures r == 0 || r == 1
      ensures r == 1 <==> exists b :: b in button && b in pt1ad1
    {
      if pt1ad1 * button != {} {
        var b :| b in pt1ad1 * button;
        r := 1;
      } else {
        assert forall b :: b in button && b in pt1ad1 ==> b in pt1ad1 * button;
        r := 0;
      }
    }

    /**
     * SWLSwitchTransition: 1 exactly when the switch bits differ from the
     * recorded ones; afterwards the recorded state is the current one.
     */
    method SwitchTransition() returns (r: nat)
      modifies this
      ensures r == 1 <==> Switches() != old(lastStates)
      ensures r == 0 <==> Switches() == old(lastStates)
      ensures lastStates == Switches()
      ensures pt1ad1 == old(pt1ad1) && ddr1ad1 == old(ddr1ad1) && atd1dien1 == old(atd1dien1)
    {
      var currentStates := Read(AnySwitch);
      if currentStates != lastStates {
        lastStates := currentStates;
        r := 1;
      } else {
        r := 0;
      }
    }

    /** Asking twice with the switches unchanged: the second answer is 0. */
    method TransitionSeenOnce() returns (first: nat, second: nat)
      modifies this
      ensures second == 0
      ensures first == 1 <==> Switches() != old(lastStates)
    {
      first := SwitchTransition();
      second := SwitchTransition();
    }
  }

  /** SWLPressed tests for any bit, not all: two switches, one of them down, count as pressed. */
  lemma PressedMeansAnyBit(port: Mask)
    requires 0 in port && 1 !in port
    ensures exists b :: b in Middle + Right && b in port
    ensures !(Middle + Right <= port)
  {
    assert 0 in Middle + Right;
  }
}
