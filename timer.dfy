/**
 * The enhanced capture timer library (lib/timer.c): tick-count arithmetic,
 * output-compare channel set-up by read-modify-write of TSCR2, TIOS,
 * TCTL1/TCTL2 and TIE, and the millisecond sleep on channel 6.
 */
module Timer {
  import opened Bits

  /** Timer_PinAction: the two-bit OMx/OLx code of a channel. */
  datatype PinAction = Disconnect | Toggle | Clear | Set

  /** Timer_Mode. */
  datatype Mode = Polling | Interrupt

  /** The enum value of a pin action (0 .. 3). */
  function ActionCode(a: PinAction): nat
  {
    match a
    case Disconnect => 0
    case Toggle => 1
    case Clear => 2
    case Set => 3
  }

  /** The prescale field of TSCR2: bits 0-2. */
  const PrescaleField: Mask := {0, 1, 2}

  /** The sleep's channel: output compare 6. */
  const SleepChannel: Bit := 6

  /** The bus rate Timer_Sleep assumes when the timer was off: 20 MHz. */
  const DefaultBusRate: nat := 20_000_000

  /** The prescale TSCR2 is given: an enum value outside 0..7 becomes 7 (divide by 128). */
  function ClampPrescale(p: int): (q: nat)
    ensures q < 8
    ensures 0 <= p < 8 ==> q == p
  {
    if p < 0 || p > 7 then 7 else p
  }

  /**
   * Timer ticks per second: the bus rate divided by the prescale divisor
   * `1 << p`, written as `p` halvings (dividing by 2 `p` times truncates
   * to the same quotient as dividing by `2^p` once).
   */
  function TickRate(bus: nat, p: nat): nat
  {
    if p == 0 then bus else TickRate(bus, p - 1) / 2
  }

  /**
   * `(bus / 2^p) * t` as `unsigned long` arithmetic: timer ticks per second
   * times a duration, which wraps modulo 2^32.
   */
  function Scaled(bus: nat, p: nat, t: nat): (s: nat)
    ensures s < 0x1_0000_0000
  {
    Low32(Mul(TickRate(bus, p), t))
  }

  /**
   * Timer_CalculateCountMilli: the whole number of timer ticks in `ms`
   * milliseconds, truncated to an `unsigned int`.
   */
  function MilliCount(bus: nat, p: nat, ms: nat): (r: UInt16)
    ensures Scaled(bus, p, ms) < 1000 * 0x1_0000 ==>
              r * 1000 <= Scaled(bus, p, ms) < r * 1000 + 1000
  {
    Low16(Scaled(bus, p, ms) / 1000)
  }

  /**
   * Timer_CalculateCountMicro: the whole number of timer ticks in `us`
   * microseconds, truncated to an `unsigned int`.
   */
  function MicroCount(bus: nat, p: nat, us: nat): (r: UInt16)
    ensures Scaled(bus, p, us) < 1_000_000 * 0x1_0000 ==>
              r * 1_000_000 <= Scaled(bus, p, us) < r * 1_000_000 + 1_000_000
  {
    Low16(Scaled(bus, p, us) / 1_000_000)
  }

  /** No time is no counts. */
  lemma MilliCountZero(bus: nat, p: nat)
    ensures MilliCount(bus, p, 0) == 0
  {
    assert Mul(TickRate(bus, p), 0) == 0;
  }

  /** At 20 MHz a millisecond is 20000 ticks undivided, 156 at prescale 128; a microsecond is 20 ticks. */
  lemma CountsAt20MHz()
    ensures MilliCount(DefaultBusRate, 0, 1) == 20000
    ensures MilliCount(DefaultBusRate, 7, 1) == 156
    ensures MicroCount(DefaultBusRate, 0, 1) == 20
  {
    assert TickRate(DefaultBusRate, 7) == 156250;
    assert Scaled(DefaultBusRate, 7, 1) == 156250;
  }

  /**
   * An offset of more than one counter cycle wraps: 4 ms at 20 MHz is
   * 80000 ticks, which the `unsigned int` result truncates to 14464.
   */
  lemma OffsetWrapsPastOneCycle()
    ensures MilliCount(DefaultBusRate, 0, 4) == 80000 - 0x1_0000
  {
    assert Scaled(DefaultBusRate, 0, 4) == 80_000_000;
  }

  /**
   * Timer_CalculateCountMicro as written overflows its `unsigned long`
   * product long before the result leaves 16 bits: 1000 us at 20 MHz is
   * 20000 ticks, but 20e6 * 1000 wraps modulo 2^32 and the function gives 2820.
   */
  lemma MicroCountWraps()
    ensures MicroCount(DefaultBusRate, 0, 1000) == 2820
    ensures MicroCountWide(DefaultBusRate, 0, 1000) == 20000
  {
    assert Scaled(DefaultBusRate, 0, 1000) == 2_820_130_816;
  }

  /**
   * Timer_CalculateCountMicro as evidently intended: the product is not
   * truncated, so the result is the whole number of ticks in `us`
   * microseconds whenever that number fits 16 bits.
   */
  function MicroCountWide(bus: nat, p: nat, us: nat): (r: UInt16)
    ensures Mul(TickRate(bus, p), us) < 1_000_000 * 0x1_0000 ==>
              r * 1_000_000 <= Mul(TickRate(bus, p), us) < r * 1_000_000 + 1_000_000
  {
    Low16(Mul(TickRate(bus, p), us) / 1_000_000)
  }

  /** The timer module's registers and the library's `globalBusClock`. */
  class Ect {
    /** globalBusClock (Hz). */
    var busClock: nat
    /** TSCR1_TEN, the timer enable. */
    var enabled: bool
    /** TSCR2: the prescale in bits 0-2. */
    var tscr2: Mask
    /** TIOS: output-compare channels. */
    var tios: Mask
    /** TCTL1: pin actions of channels 4-7, two bits each. */
    var tctl1: Mask
    /** TCTL2: pin actions of channels 0-3, two bits each. */
    var tctl2: Mask
    /** TFLG1: output-compare flags, cleared by writing 1. */
    var tflg1: Mask
    /** TIE: channel interrupt enables. */
    var tie: Mask
    /** TC0 .. TC7: output-compare registers. */
    var tc: seq<UInt16>
    /** TCNT: the free-running counter, as the hardware shows it. */
    var tcnt: UInt16

    ghost predicate Valid()
      reads this
    {
      |tc| == 8 && busClock < 0x1_0000_0000
    }

    /** Reset: every register 0, the counter at `counter`. */
    constructor (counter: UInt16)
      ensures Valid()
      ensures busClock == 0 && !enabled && tcnt == counter && tc == [0, 0, 0, 0, 0, 0, 0, 0]
      ensures tscr2 == {} && tios == {} && tctl1 == {} && tctl2 == {} && tflg1 == {} && tie == {}
    {
      busClock := 0;
      enabled := false;
      tscr2, tios, tctl1, tctl2, tflg1, tie := {}, {}, {}, {}, {}, {};
      tc := [0, 0, 0, 0, 0, 0, 0, 0];
      tcnt := counter;
    }

    /** Timer_Init, first part: the bus rate and the clamped prescale in bits 0-2 of TSCR2. */
    method SetClock(bus: nat, prescale: int)
      requires Valid() && bus < 0x1_0000_0000
      modifies this
      ensures Valid()
      ensures busClock == bus && Prescale() == ClampPrescale(prescale)
      ensures tscr2 - PrescaleField == old(tscr2) - PrescaleField
      ensures enabled == old(enabled) && tios == old(tios) && tctl1 == old(tctl1) && tctl2 == old(tctl2)
      ensures tc == old(tc) && tflg1 == old(tflg1) && tie == old(tie) && tcnt == old(tcnt)
    {
      busClock, tscr2 := bus, WriteField3(tscr2, 0, ClampPrescale(prescale));
    }

    /**
     * Timer_Init, second part: `ch` becomes an output compare with its pin
     * action, armed `offsetMs` after TCNT, its flag cleared and its
     * interrupt enabled or disabled.
     */
    method ArmChannel(ch: Bit, offsetMs: UInt16, mode: Mode, action: PinAction)
      requires Valid()
      modifies this
      ensures Valid()
      ensures tios == old(tios) + {ch}
      ensures ch < 4 ==> Value2(tctl2, 2 * ch) == ActionCode(action)
                         && tctl2 - Span2(2 * ch) == old(tctl2) - Span2(2 * ch) && tctl1 == old(tctl1)
      ensures ch >= 4 ==> Value2(tctl1, 2 * (ch - 4)) == ActionCode(action)
                          && tctl1 - Span2(2 * (ch - 4)) == old(tctl1) - Span2(2 * (ch - 4)) && tctl2 == old(tctl2)
      ensures tc == old(tc)[ch := Low16(tcnt as int + MilliCount(busClock, Prescale(), offsetMs))]
      ensures tflg1 == old(tflg1) - {ch}
      ensures tie == if mode.Interrupt? then old(tie) + {ch} else old(tie) - {ch}
      ensures busClock == old(busClock) && enabled == old(enabled) && tscr2 == old(tscr2) && tcnt == old(tcnt)
    {
      tios := tios + {ch};
      SetPinAction(ch, action);
      var offsetCount := MilliCount(busClock, Prescale(), offsetMs);
      tc := tc[ch := Low16(tcnt as int + offsetCount)];
      tflg1 := tflg1 - {ch};
      tie := if mode.Interrupt? then tie + {ch} else tie - {ch};
    }

    /** Timer_Init's switch on the channel, applied to TCTL1 and TCTL2. */
    method SetPinAction(ch: Bit, action: PinAction)
      modifies this`tctl1, this`tctl2
      ensures (tctl1, tctl2) == PinActionRegisters(old(tctl1), old(tctl2), ch, ActionCode(action))
    {
      var regs := PinActionRegisters(tctl1, tctl2, ch, ActionCode(action));
      tctl1, tctl2 := regs.0, regs.1;
    }

    /**
     * Timer_Init's switch on the channel: the action code goes into the
     * channel's own two bits of TCTL2 (channels 0-3) or TCTL1 (channels 4-7);
     * the other register is left alone.
     */
    static function PinActionRegisters(tctl1: Mask, tctl2: Mask, ch: Bit, code: nat): (r: (Mask, Mask))
      requires code < 4
      ensures ch < 4 ==> Value2(r.1, 2 * ch) == code
                         && r.1 - Span2(2 * ch) == tctl2 - Span2(2 * ch) && r.0 == tctl1
      ensures ch >= 4 ==> Value2(r.0, 2 * (ch - 4)) == code
                          && r.0 - Span2(2 * (ch - 4)) == tctl1 - Span2(2 * (ch - 4)) && r.1 == tctl2
    {
      if ch < 4 then (tctl1, WriteField2(tctl2, 2 * ch, code))
      else (WriteField2(tctl1, 2 * (ch - 4), code), tctl2)
    }

    /** Timer_GetPrescaleBin: the prescale TSCR2 holds. */
    function Prescale(): (p: nat)
      reads this
      ensures p < 8
    {
      Value3(tscr2, 0)
    }

    /**
     * Timer_Init: record the bus rate, load the clamped prescale into bits
     * 0-2 of TSCR2, make `ch` an output compare, write its pin action into
     * its own two bits of TCTL2 (channels 0-3) or TCTL1 (channels 4-7),
     * arm it `offsetMs` after TCNT, clear its flag, set or clear its
     * interrupt enable and start the timer.
     */
    method Init(bus: nat, prescale: int, offsetMs: UInt16, ch: Bit, mode: Mode, action: PinAction)
      requires Valid() && bus < 0x1_0000_0000
      modifies this
      ensures Valid()
      ensures busClock == bus && enabled
      ensures Prescale() == ClampPrescale(prescale)
      ensures tscr2 - PrescaleField == old(tscr2) - PrescaleField
      ensures tios == old(tios) + {ch}
      ensures ch < 4 ==> Value2(tctl2, 2 * ch) == ActionCode(action)
                         && tctl2 - Span2(2 * ch) == old(tctl2) - Span2(2 * ch) && tctl1 == old(tctl1)
      ensures ch >= 4 ==> Value2(tctl1, 2 * (ch - 4)) == ActionCode(action)
                          && tctl1 - Span2(2 * (ch - 4)) == old(tctl1) - Span2(2 * (ch - 4)) && tctl2 == old(tctl2)
      ensures tc == old(tc)[ch := Low16(old(tcnt) as int + MilliCount(bus, Prescale(), offsetMs))]
      ensures tflg1 == old(tflg1) - {ch}
      ensures tie == if mode.Interrupt? then old(tie) + {ch} else old(tie) - {ch}
      ensures tcnt == old(tcnt)
    {
      SetClock(bus, prescale);
      ArmChannel(ch, offsetMs, mode, action);
      enabled := true;
    }

    /**
     * Timer_Sleep: set up channel 6 with no pin action in polling mode
     * (with the current bus rate and prescale if the timer runs, with
     * 20 MHz and prescale 1 if it does not), then wait for its flag `ms`
     * times, re-arming it one millisecond later each time.  The timer is
     * switched off at the end exactly when it was off at the start.  The
     * wait for the flag is the hardware raising it.
     */
    method Sleep(ms: UInt16)
      requires Valid()
      modifies this
      ensures Valid()
      ensures enabled == old(enabled)
      ensures old(enabled) ==> busClock == old(busClock) && tscr2 == old(tscr2)
      ensures !old(enabled) ==> busClock == DefaultBusRate && Prescale() == 0
      ensures tc == old(tc)[SleepChannel := Low16(old(tcnt) + Mul(ms, MilliCount(busClock, Prescale(), 1)))]
      ensures tflg1 == old(tflg1) - {SleepChannel}
      ensures tie == old(tie) - {SleepChannel} && tios == old(tios) + {SleepChannel}
      ensures Value2(tctl1, 4) == 0 && tctl2 == old(tctl2)
      ensures tctl1 - Span2(4) == old(tctl1) - Span2(4)
      ensures tscr2 - PrescaleField == old(tscr2) - PrescaleField
      ensures tcnt == old(tcnt)
    {
      var initFlag := ArmSleepChannel();
      var numCounts1ms := MilliCount(busClock, Prescale(), 1);
      WaitMilliseconds(ms, numCounts1ms);
      if initFlag {
        enabled := false;
      }
    }

    /**
     * The set-up half of Timer_Sleep: channel 6 armed at the current count
     * with no pin action and no interrupt, on the running timer's clock or
     * on 20 MHz undivided.  Reports whether the timer was off.
     */
    method ArmSleepChannel() returns (initFlag: bool)
      requires Valid()
      modifies this
      ensures Valid() && enabled
      ensures initFlag == !old(enabled)
      ensures old(enabled) ==> busClock == old(busClock) && tscr2 == old(tscr2)
      ensures !old(enabled) ==> busClock == DefaultBusRate && Prescale() == 0
      ensures tc == old(tc)[SleepChannel := Low16(old(tcnt))]
      ensures tflg1 == old(tflg1) - {SleepChannel}
      ensures tie == old(tie) - {SleepChannel} && tios == old(tios) + {SleepChannel}
      ensures Value2(tctl1, 4) == 0 && tctl2 == old(tctl2)
      ensures tctl1 - Span2(4) == old(tctl1) - Span2(4)
      ensures tscr2 - PrescaleField == old(tscr2) - PrescaleField
      ensures tcnt == old(tcnt)
    {
      initFlag := !enabled;
      var bus, prescale := busClock, Prescale();
      if initFlag {
        bus, prescale := DefaultBusRate, 0;
      }
      WriteField3Same(tscr2, 0);
      Init(bus, prescale, 0, SleepChannel, Polling, Disconnect);
      MilliCountZero(busClock, Prescale());
    }

    /**
     * Timer_Sleep's wait loop: `ms` times, the hardware raises channel 6's
     * flag, the loop clears it and moves TC6 on by one millisecond of
     * counts.  Nothing else changes.
     */
    method WaitMilliseconds(ms: UInt16, numCounts1ms: nat)
      requires Valid()
      requires tc[SleepChannel] == Low16(tcnt) && SleepChannel !in tflg1
      modifies this
      ensures Valid()
      ensures tc == old(tc)[SleepChannel := Low16(tcnt + Mul(ms, numCounts1ms))]
      ensures tflg1 == old(tflg1)
      ensures busClock == old(busClock) && enabled == old(enabled) && tscr2 == old(tscr2)
      ensures tios == old(tios) && tctl1 == old(tctl1) && tctl2 == old(tctl2)
      ensures tie == old(tie) && tcnt == old(tcnt)
    {
      var counter := 0;
      assert Mul(0, numCounts1ms) == 0;
      assert tc == old(tc)[SleepChannel := tc[SleepChannel]];
      while counter < ms
        invariant 0 <= counter <= ms
        invariant Valid()
        invariant tc == old(tc)[SleepChannel := Low16(tcnt + Mul(counter, numCounts1ms))]
        invariant tflg1 == old(tflg1)
        modifies this`tc, this`tflg1
      {
        tflg1 := tflg1 + {SleepChannel};
        tflg1 := tflg1 - {SleepChannel};
        ghost var next := Low16(tcnt + Mul(counter + 1, numCounts1ms));
        assert Low16(tc[SleepChannel] as int + numCounts1ms) == next by {
          Low16Add(tcnt + Mul(counter, numCounts1ms), numCounts1ms);
          MulSucc(counter, numCounts1ms);
        }
        tc := tc[SleepChannel := Low16(tc[SleepChannel] as int + numCounts1ms)];
        assert tc == old(tc)[SleepChannel := next];
        counter := counter + 1;
      }
    }
  }
}
