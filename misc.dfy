/**
 * Odds and ends of SCI/lib/misc.c: the port J interrupt set-up and the
 * conversion of a millisecond count to an hh:mm:ss.t time string.
 */
module Misc {
  import opened Bits
  import opened Text

  /** PortJ_Option: whether a port J pin is used as an interrupt input. */
  datatype PortJOption = Off | On

  /** The port J pins an initialisation enables. */
  function Enabled(pj0: PortJOption, pj1: PortJOption): (pins: Mask)
    ensures pins <= {0, 1}
    ensures 0 in pins <==> pj0.On?
    ensures 1 in pins <==> pj1.On?
  {
    (if pj0.On? then {0} else {}) + (if pj1.On? then {1} else {})
  }

  /**
   * The DDRJ bits PortJ_Init clears as coded: pj0 clears bit 1 and pj1
   * clears bit 0, each the other pin's bit.
   */
  function CrossedDirections(pj0: PortJOption, pj1: PortJOption): (pins: Mask)
    ensures pins <= {0, 1}
    ensures 1 in pins <==> pj0.On?
    ensures 0 in pins <==> pj1.On?
  {
    (if pj0.On? then {1} else {}) + (if pj1.On? then {0} else {})
  }

  /** The port J data, direction, polarity and interrupt-enable registers. */
  class PortJ {
    /** PTJ. */
    var ptj: Mask
    /** DDRJ: a 1-bit makes the pin an output. */
    var ddrj: Mask
    /** PPSJ: a 1-bit selects the rising edge. */
    var ppsj: Mask
    /** PIEJ: a 1-bit lets the pin interrupt. */
    var piej: Mask

    /** The registers as some earlier code left them. */
    constructor (data: Mask, direction: Mask, polarity: Mask, interrupts: Mask)
      ensures ptj == data && ddrj == direction && ppsj == polarity && piej == interrupts
    {
      ptj, ddrj, ppsj, piej := data, direction, polarity, interrupts;
    }

    /**
     * PortJ_Init as coded: PTJ bits 0 and 1 cleared; each enabled pin gets
     * its own rising-edge and interrupt-enable bit, but the DDRJ bit cleared
     * for it is the other pin's.
     */
    method Init(pj0: PortJOption, pj1: PortJOption)
      modifies this
      ensures ptj == old(ptj) - {0, 1}
      ensures ddrj == old(ddrj) - CrossedDirections(pj0, pj1)
      ensures ppsj == old(ppsj) + Enabled(pj0, pj1)
      ensures piej == old(piej) + Enabled(pj0, pj1)
    {
      ptj := ptj - {0, 1};
      if pj0 == On {
        ddrj := ddrj - {1};
        ppsj := ppsj + {0};
        piej := piej + {0};
      }
      if pj1 == On {
        ddrj := ddrj - {0};
        ppsj := ppsj + {1};
        piej := piej + {1};
      }
    }

    /**
     * PortJ_Init as its comments describe it: each enabled pin becomes an
     * input that interrupts on its rising edge, and no other bit changes.
     */
    method InitCorrected(pj0: PortJOption, pj1: PortJOption)
      modifies this
      ensures ptj == old(ptj) - {0, 1}
      ensures ddrj == old(ddrj) - Enabled(pj0, pj1)
      ensures ppsj == old(ppsj) + Enabled(pj0, pj1)
      ensures piej == old(piej) + Enabled(pj0, pj1)
      ensures forall k :: k in Enabled(pj0, pj1) ==> k !in ddrj && k in ppsj && k in piej
    {
      ptj := ptj - {0, 1};
      if pj0 == On {
        ddrj := ddrj - {0};
        ppsj := ppsj + {0};
        piej := piej + {0};
      }
      if pj1 == On {
        ddrj := ddrj - {1};
        ppsj := ppsj + {1};
        piej := piej + {1};
      }
    }
  }

  /**
   * With pin J0 left an output by earlier code, PortJ_Init as coded enables
   * its interrupt but leaves it an output; the corrected set-up makes it an
   * input.
   */
  method CrossedDirectionExample() returns (coded: PortJ, corrected: PortJ)
    ensures 0 in coded.piej && 0 in coded.ddrj
    ensures 0 in corrected.piej && 0 !in corrected.ddrj
  {
    coded := new PortJ({}, {0}, {}, {});
    coded.Init(On, Off);
    corrected := new PortJ({}, {0}, {}, {});
    corrected.InitCorrected(On, Off);
  }

  /** Milliseconds in an hour, a minute and a second. */
  const MsPerHour: nat := 3_600_000
  const MsPerMinute: nat := 60_000
  const MsPerSecond: nat := 1000

  /** A time split into hours, minutes, seconds and tenths of a second. */
  datatype ClockTime = ClockTime(hours: nat, minutes: nat, seconds: nat, tenths: nat)

  /** The milliseconds a split time stands for. */
  function Total(t: ClockTime): nat
  {
    t.hours * MsPerHour + t.minutes * MsPerMinute + t.seconds * MsPerSecond + t.tenths * 100
  }

  /** The fields are in range: under 60 minutes and seconds, under 10 tenths. */
  predicate WellFormed(t: ClockTime)
  {
    t.minutes < 60 && t.seconds < 60 && t.tenths < 10
  }

  /**
   * FormatTimeMs's arithmetic on an `unsigned long` count: whole hours
   * (cast to `unsigned int`), then whole minutes, whole seconds and whole
   * tenths of what is left, each remainder kept for the next.  The time
   * shown is never later than `ms` and less than 100 ms earlier: the
   * tenths are truncated, not rounded.
   */
  function Split(ms: nat): (t: ClockTime)
    requires ms < 0x1_0000_0000
    ensures WellFormed(t)
    ensures t.hours < 1194
    ensures Total(t) <= ms < Total(t) + 100
  {
    var hours := Low16(ms / MsPerHour);
    var ms1 := ms % MsPerHour;
    var minutes := ms1 / MsPerMinute;
    var ms2 := ms1 % MsPerMinute;
    var seconds := ms2 / MsPerSecond;
    var ms3 := ms2 % MsPerSecond;
    ClockTime(hours, minutes, seconds, ms3 / 100)
  }

  /** Only one well-formed time lies within 100 ms below `ms`, so Split finds it. */
  lemma SplitUnique(ms: nat, t: ClockTime)
    requires ms < 0x1_0000_0000
    requires WellFormed(t) && Total(t) <= ms < Total(t) + 100
    ensures Split(ms) == t
  {
    var u := Split(ms);
    var below := u.minutes * MsPerMinute + u.seconds * MsPerSecond + u.tenths * 100;
    var tBelow := t.minutes * MsPerMinute + t.seconds * MsPerSecond + t.tenths * 100;
    assert below < MsPerHour && tBelow < MsPerHour;
    assert u.hours == t.hours;
    assert u.minutes == t.minutes by {
      assert u.seconds * MsPerSecond + u.tenths * 100 < MsPerMinute;
      assert t.seconds * MsPerSecond + t.tenths * 100 < MsPerMinute;
    }
    assert u.seconds == t.seconds;
  }

  /** 1999 ms shows as 1.9 s, not 2.0 s. */
  lemma TenthsTruncate()
    ensures Split(1999) == ClockTime(0, 0, 1, 9)
  {
    SplitUnique(1999, ClockTime(0, 0, 1, 9));
  }

  /** FormatTimeMs's text, `%02d:%02d:%02d.%01lu` of the split time. */
  function FormatTimeMs(ms: nat): (r: string)
    requires ms < 0x1_0000_0000
    ensures |r| >= 10
    ensures Split(ms).hours < 100 ==> |r| == 10
    ensures r[|r| - 8] == ':' && r[|r| - 5] == ':' && r[|r| - 2] == '.'
    ensures IsDigits(r[..|r| - 8]) && IsDigits(r[|r| - 7..|r| - 5])
    ensures IsDigits(r[|r| - 4..|r| - 2]) && IsDigits(r[|r| - 1..])
  {
    var t := Split(ms);
    Pad2(t.hours) + [':'] + Pad2(t.minutes) + [':'] + Pad2(t.seconds) + ['.'] + Decimal(t.tenths)
  }

  /** Each field of the text reads back as the split time's field. */
  lemma FormatTimeMsRoundTrip(ms: nat)
    requires ms < 0x1_0000_0000
    ensures var r := FormatTimeMs(ms);
      && ParseDecimal(r[..|r| - 8]) == Split(ms).hours
      && ParseDecimal(r[|r| - 7..|r| - 5]) == Split(ms).minutes
      && ParseDecimal(r[|r| - 4..|r| - 2]) == Split(ms).seconds
      && ParseDecimal(r[|r| - 1..]) == Split(ms).tenths
  {
    var t := Split(ms);
    var h, m, s, d := Pad2(t.hours), Pad2(t.minutes), Pad2(t.seconds), Decimal(t.tenths);
    TimeFields(h, m, s, d);
    Pad2RoundTrip(t.hours);
    Pad2RoundTrip(t.minutes);
    Pad2RoundTrip(t.seconds);
    DecimalRoundTrip(t.tenths);
  }

  /** The four fields of an hh:mm:ss.t text lie where FormatTimeMs's shape puts them. */
  lemma TimeFields(h: string, m: string, s: string, d: string)
    requires |m| == 2 && |s| == 2 && |d| == 1
    ensures var r := h + [':'] + m + [':'] + s + ['.'] + d;
      && r[..|r| - 8] == h && r[|r| - 7..|r| - 5] == m
      && r[|r| - 4..|r| - 2] == s && r[|r| - 1..] == d
  {
    var r := h + [':'] + m + [':'] + s + ['.'] + d;
    assert |r| == |h| + 8;
    assert r[..|h|] == h;
    assert r[|h| + 1..|h| + 3] == m;
    assert r[|h| + 4..|h| + 6] == s;
    assert r[|h| + 7..] == d;
  }
}
