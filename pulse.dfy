/**
 * The PWM library (SCI/lib/pulse.c): channel set-up by read-modify-write of
 * the PWM module's registers.  Channel k is the one-hot enum value with
 * bit k set; in 16-bit mode channels 2j and 2j+1 are concatenated and the
 * odd channel is the one that counts.
 */
module Pulse {
  import opened Bits

  /** Pulse_PrescaleStage1: clock A/B divides the bus by 2^p. */
  type Stage1 = p: int | 0 <= p < 8

  /** Pulse_Polarity. */
  datatype Polarity = Negative | Positive

  /** Pulse_Control. */
  datatype Control = Disabled | Enabled

  /** Pulse_GroupA: channels 0, 1, 4 and 5 are clocked from clock A / SA. */
  const GroupA: Mask := {0, 1, 4, 5}

  /** Pulse_GroupB: channels 2, 3, 6 and 7 are clocked from clock B / SB. */
  const GroupB: Mask := {2, 3, 6, 7}

  /** The clock A field of PWMPRCLK (bits 0-2) starts at bit 0, clock B's (bits 4-6) at bit 4. */
  const ClockAField: nat := 0
  const ClockBField: nat := 4

  /** The groups' enum values. */
  lemma GroupValues()
    ensures ByteValue(GroupA) == 0x33 && ByteValue(GroupB) == 0xCC
    ensures GroupA !! GroupB && GroupA + GroupB == AllBits
  {
  }

  /**
   * The channel Pulse_Init_16Bit uses for `ch`: an even channel is replaced
   * by the odd channel of its pair, an odd channel is kept.
   */
  function Paired(ch: Bit): (c: Bit)
    ensures c % 2 == 1
    ensures c / 2 == ch / 2
    ensures c == ch <==> ch % 2 == 1
  {
    if ch % 2 == 0 then ch + 1 else ch
  }

  /** The PWMCTL bit that concatenates the pair of odd channel `c`: CON01 is bit 4 .. CON67 bit 7. */
  function ConcatBit(c: Bit): (b: Bit)
    requires c % 2 == 1
    ensures b >= 4
  {
    4 + c / 2
  }

  /** The four pairs have four different concatenation bits. */
  lemma ConcatBitsDistinct(c: Bit, d: Bit)
    requires c % 2 == 1 && d % 2 == 1
    ensures ConcatBit(c) == ConcatBit(d) <==> c == d
  {
  }

  /** The high byte of a 16-bit register, as the first of its two 8-bit halves. */
  function High(v: UInt16): (h: Byte)
  {
    v / 0x100
  }

  /** The low byte of a 16-bit register, as the second of its two 8-bit halves. */
  function Low(v: UInt16): (l: Byte)
  {
    v % 0x100
  }

  /** The two halves of a 16-bit register recombine to its value. */
  lemma HalvesRecombine(v: UInt16)
    ensures High(v) as int * 0x100 + Low(v) == v
  {
  }

  /** The PWM module's registers. */
  class Pwm {
    /** PWME: channel enables. */
    var pwme: Mask
    /** PWMPOL: channel polarities (1 = high at the start of the period). */
    var pwmpol: Mask
    /** PWMCLK: 1 selects the scaled clock SA/SB for the channel. */
    var pwmclk: Mask
    /** PWMPRCLK: clock A prescale in bits 0-2, clock B prescale in bits 4-6. */
    var pwmprclk: Mask
    /** PWMCTL: the concatenation bits CON01 .. CON67 in bits 4-7. */
    var pwmctl: Mask
    /** PWMSCLA and PWMSCLB: the scaled-clock dividers. */
    var pwmscla: Byte
    var pwmsclb: Byte
    /** PWMPER0 .. PWMPER7; PWMPERxy is the pair PWMPERx (high byte), PWMPERy (low byte). */
    var per: seq<Byte>
    /** PWMDTY0 .. PWMDTY7, paired like the periods. */
    var dty: seq<Byte>

    ghost predicate Valid()
      reads this
    {
      |per| == 8 && |dty| == 8
    }

    /** Reset: every register 0. */
    constructor ()
      ensures Valid()
      ensures pwme == {} && pwmpol == {} && pwmclk == {} && pwmprclk == {} && pwmctl == {}
      ensures pwmscla == 0 && pwmsclb == 0
      ensures per == [0, 0, 0, 0, 0, 0, 0, 0] && dty == [0, 0, 0, 0, 0, 0, 0, 0]
    {
      pwme, pwmpol, pwmclk, pwmprclk, pwmctl := {}, {}, {}, {}, {};
      pwmscla, pwmsclb := 0, 0;
      per := [0, 0, 0, 0, 0, 0, 0, 0];
      dty := [0, 0, 0, 0, 0, 0, 0, 0];
    }

    /**
     * Pulse_SetClockPrescales: for a Group A channel the clock A field of
     * PWMPRCLK becomes `stage1` and PWMSCLA becomes `stage2`; for Group B
     * the clock B field and PWMSCLB.  Nothing else changes.
     */
    method SetClockPrescales(ch: Bit, stage1: Stage1, stage2: Byte)
      modifies this
      ensures ch in GroupA ==> Value3(pwmprclk, ClockAField) == stage1
                               && pwmprclk - Span3(ClockAField) == old(pwmprclk) - Span3(ClockAField)
                               && pwmscla == stage2 && pwmsclb == old(pwmsclb)
      ensures ch in GroupB ==> Value3(pwmprclk, ClockBField) == stage1
                               && pwmprclk - Span3(ClockBField) == old(pwmprclk) - Span3(ClockBField)
                               && pwmsclb == stage2 && pwmscla == old(pwmscla)
      ensures pwme == old(pwme) && pwmpol == old(pwmpol) && pwmclk == old(pwmclk) && pwmctl == old(pwmctl)
      ensures per == old(per) && dty == old(dty)
    {
      if ch in GroupA {
        pwmprclk := (pwmprclk - Span3(ClockAField)) + Field3(stage1, ClockAField);
        Field3RoundTrip(stage1, pwmprclk, ClockAField);
        pwmscla := stage2;
      } else {
        pwmprclk := (pwmprclk - Span3(ClockBField)) + Field3(stage1, ClockBField);
        Field3RoundTrip(stage1, pwmprclk, ClockBField);
        pwmsclb := stage2;
      }
    }

    /** Pulse_SetPeriod_8Bit: PWMPERk becomes `period`. */
    method SetPeriod8(ch: Bit, period: Byte)
      requires Valid()
      modifies this
      ensures Valid() && per == old(per)[ch := period]
      ensures pwme == old(pwme) && pwmpol == old(pwmpol) && pwmclk == old(pwmclk) && pwmctl == old(pwmctl)
      ensures pwmprclk == old(pwmprclk) && pwmscla == old(pwmscla) && pwmsclb == old(pwmsclb) && dty == old(dty)
    {
      per := per[ch := period];
    }

    /** Pulse_SetDuty_8Bit: PWMDTYk becomes `duty`. */
    method SetDuty8(ch: Bit, duty: Byte)
      requires Valid()
      modifies this
      ensures Valid() && dty == old(dty)[ch := duty]
      ensures pwme == old(pwme) && pwmpol == old(pwmpol) && pwmclk == old(pwmclk) && pwmctl == old(pwmctl)
      ensures pwmprclk == old(pwmprclk) && pwmscla == old(pwmscla) && pwmsclb == old(pwmsclb) && per == old(per)
    {
      dty := dty[ch := duty];
    }

    /**
     * Pulse_SetPeriod_16Bit: for an odd channel the concatenated register
     * of its pair holds `period` (high byte in the even half); for an even
     * channel nothing is written.
     */
    method SetPeriod16(ch: Bit, period: UInt16)
      requires Valid()
      modifies this
      ensures Valid()
      ensures ch % 2 == 1 ==> per == old(per)[ch - 1 := High(period)][ch := Low(period)]
                              && per[ch - 1] as int * 0x100 + per[ch] == period
      ensures ch % 2 == 0 ==> per == old(per)
      ensures pwme == old(pwme) && pwmpol == old(pwmpol) && pwmclk == old(pwmclk) && pwmctl == old(pwmctl)
      ensures pwmprclk == old(pwmprclk) && pwmscla == old(pwmscla) && pwmsclb == old(pwmsclb) && dty == old(dty)
    {
      if ch % 2 == 1 {
        per := per[ch - 1 := High(period)][ch := Low(period)];
        HalvesRecombine(period);
      }
    }

    /**
     * Pulse_SetDuty_16Bit: for an odd channel the concatenated register of
     * its pair holds `duty`; for an even channel nothing is written.
     */
    method SetDuty16(ch: Bit, duty: UInt16)
      requires Valid()
      modifies this
      ensures Valid()
      ensures ch % 2 == 1 ==> dty == old(dty)[ch - 1 := High(duty)][ch := Low(duty)]
                              && dty[ch - 1] as int * 0x100 + dty[ch] == duty
      ensures ch % 2 == 0 ==> dty == old(dty)
      ensures pwme == old(pwme) && pwmpol == old(pwmpol) && pwmclk == old(pwmclk) && pwmctl == old(pwmctl)
      ensures pwmprclk == old(pwmprclk) && pwmscla == old(pwmscla) && pwmsclb == old(pwmsclb) && per == old(per)
    {
      if ch % 2 == 1 {
        dty := dty[ch - 1 := High(duty)][ch := Low(duty)];
        HalvesRecombine(duty);
      }
    }

    /** Pulse_SetPolarity: the channel's PWMPOL bit is set for positive, cleared for negative. */
    method SetPolarity(ch: Bit, polarity: Polarity)
      modifies this
      ensures pwmpol == if polarity.Positive? then old(pwmpol) + {ch} else old(pwmpol) - {ch}
      ensures ch in pwmpol <==> polarity.Positive?
      ensures pwmpol - {ch} == old(pwmpol) - {ch}
      ensures pwme == old(pwme) && pwmclk == old(pwmclk) && pwmctl == old(pwmctl) && pwmprclk == old(pwmprclk)
      ensures pwmscla == old(pwmscla) && pwmsclb == old(pwmsclb) && per == old(per) && dty == old(dty)
    {
      if polarity.Positive? {
        pwmpol := pwmpol + {ch};
      } else {
        pwmpol := pwmpol - {ch};
      }
    }

    /** Pulse_SelectClock: the channel's PCLK bit is 1 exactly when `useStage2` is non-zero. */
    method SelectClock(ch: Bit, useStage2: Byte)
      modifies this
      ensures pwmclk == if useStage2 != 0 then old(pwmclk) + {ch} else old(pwmclk) - {ch}
      ensures ch in pwmclk <==> useStage2 != 0
      ensures pwmclk - {ch} == old(pwmclk) - {ch}
      ensures pwme == old(pwme) && pwmpol == old(pwmpol) && pwmctl == old(pwmctl) && pwmprclk == old(pwmprclk)
      ensures pwmscla == old(pwmscla) && pwmsclb == old(pwmsclb) && per == old(per) && dty == old(dty)
    {
      if useStage2 != 0 {
        pwmclk := pwmclk + {ch};
      } else {
        pwmclk := pwmclk - {ch};
      }
    }

    /** Pulse_ChannelControl: the channel's PWME bit is set to enable, cleared to disable. */
    method ChannelControl(ch: Bit, control: Control)
      modifies this
      ensures pwme == if control.Enabled? then old(pwme) + {ch} else old(pwme) - {ch}
      ensures ch in pwme <==> control.Enabled?
      ensures pwme - {ch} == old(pwme) - {ch}
      ensures pwmpol == old(pwmpol) && pwmclk == old(pwmclk) && pwmctl == old(pwmctl) && pwmprclk == old(pwmprclk)
      ensures pwmscla == old(pwmscla) && pwmsclb == old(pwmsclb) && per == old(per) && dty == old(dty)
    {
      if control.Enabled? {
        pwme := pwme + {ch};
      } else {
        pwme := pwme - {ch};
      }
    }

    /**
     * Pulse_Init_8Bit: prescales, period, duty, clock choice and polarity
     * of one channel, then the channel is enabled.
     */
    method Init8(ch: Bit, stage1: Stage1, stage2: Byte, polarity: Polarity, period: Byte, duty: Byte)
      requires Valid()
      modifies this
      ensures Valid()
      ensures per == old(per)[ch := period] && dty == old(dty)[ch := duty]
      ensures (ch in pwmclk <==> stage2 != 0) && pwmclk - {ch} == old(pwmclk) - {ch}
      ensures (ch in pwmpol <==> polarity.Positive?) && pwmpol - {ch} == old(pwmpol) - {ch}
      ensures pwme == old(pwme) + {ch}
      ensures pwmctl == old(pwmctl)
      ensures ch in GroupA ==> Value3(pwmprclk, ClockAField) == stage1 && pwmscla == stage2
                               && pwmprclk - Span3(ClockAField) == old(pwmprclk) - Span3(ClockAField)
                               && pwmsclb == old(pwmsclb)
      ensures ch in GroupB ==> Value3(pwmprclk, ClockBField) == stage1 && pwmsclb == stage2
                               && pwmprclk - Span3(ClockBField) == old(pwmprclk) - Span3(ClockBField)
                               && pwmscla == old(pwmscla)
    {
      SetClockPrescales(ch, stage1, stage2);
      SetPeriod8(ch, period);
      SetDuty8(ch, duty);
      SelectClock(ch, stage2);
      SetPolarity(ch, polarity);
      ChannelControl(ch, Enabled);
    }

    /**
     * Pulse_Init_16Bit: the channel is moved to the odd channel of its
     * pair, which gets the prescales, the 16-bit period and duty, the clock
     * choice and the polarity; then exactly the pair's concatenation bit is
     * set and the odd channel is enabled.
     */
    method Init16(ch: Bit, stage1: Stage1, stage2: Byte, polarity: Polarity, period: UInt16, duty: UInt16)
      requires Valid()
      modifies this
      ensures Valid()
      ensures var c := Paired(ch);
        && per[c - 1] as int * 0x100 + per[c] == period && dty[c - 1] as int * 0x100 + dty[c] == duty
        && (forall i :: 0 <= i < 8 && i / 2 != c / 2 ==> per[i] == old(per)[i] && dty[i] == old(dty)[i])
        && (c in pwmclk <==> stage2 != 0) && pwmclk - {c} == old(pwmclk) - {c}
        && (c in pwmpol <==> polarity.Positive?) && pwmpol - {c} == old(pwmpol) - {c}
        && pwmctl == old(pwmctl) + {ConcatBit(c)}
        && pwme == old(pwme) + {c}
        && (c in GroupA ==> Value3(pwmprclk, ClockAField) == stage1 && pwmscla == stage2
                            && pwmprclk - Span3(ClockAField) == old(pwmprclk) - Span3(ClockAField)
                            && pwmsclb == old(pwmsclb))
        && (c in GroupB ==> Value3(pwmprclk, ClockBField) == stage1 && pwmsclb == stage2
                            && pwmprclk - Span3(ClockBField) == old(pwmprclk) - Span3(ClockBField)
                            && pwmscla == old(pwmscla))
    {
      var c := Paired(ch);
      SetClockPrescales(c, stage1, stage2);
      SetPeriod16(c, period);
      SetDuty16(c, duty);
      SelectClock(c, stage2);
      SetPolarity(c, polarity);
      pwmctl := pwmctl + {ConcatBit(c)};
      ChannelControl(c, Enabled);
    }
  }
}
