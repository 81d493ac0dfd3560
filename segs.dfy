/**
 * The eight-digit 7-segment display library (SCI/lib/segs.c).  Each digit
 * write is a (command, data) byte pair presented on port B and strobed in
 * with port A bit 0, port A bit 1 selecting command (high) or data (low).
 * The header segs.h is not part of this model: the decimal-point bit
 * Segs_SegDec is taken as 0x80, the bit Segs_Normal uses for the decimal
 * point, and the line options as top = 0, bottom = 1.
 */
module Segs {
  import opened Bits

  /** Segs_LineOption: the top line is digits 0-3, the bottom line digits 4-7. */
  datatype Line = Top | Bottom

  /** Segs_DPOption. */
  datatype DpOption = DpOff | DpOn

  /** The number of a line. */
  function LineIndex(line: Line): (n: nat)
    ensures n < 2
  {
    if line.Top? then 0 else 1
  }

  /** Segs_SegDec: the decimal-point bit of a data byte. */
  const SegDec: Byte := 0x80

  /** The strobe line (port A bit 0) and the mode line (port A bit 1). */
  const StrobeLine: Bit := 0
  const ModeLine: Bit := 1

  /** One digit write: the command byte, then the data byte. */
  datatype SegWrite = SegWrite(command: Byte, data: Byte)

  /** Segs_Custom's command: digit address in bits 0-2, no-decode bank A command 0b01111 above it. */
  function CustomCommand(addr: Byte): (c: Byte)
    ensures c % 8 == addr % 8 && c / 8 == 0x0F
  {
    addr % 8 + 0x78
  }

  /** Segs_Normal's command: digit address in bits 0-2, hex-decode bank A command 0b01011 above it. */
  function NormalCommand(addr: Byte): (c: Byte)
    ensures c % 8 == addr % 8 && c / 8 == 0x0B
  {
    addr % 8 + 0x58
  }

  /** Segs_Custom's data: the segment pattern with the decimal-point bit inverted. */
  function CustomData(v: Byte): (d: Byte)
    ensures d % 0x80 == v % 0x80
    ensures d >= SegDec <==> v < SegDec
  {
    if v >= SegDec then v - SegDec else v + SegDec
  }

  /**
   * Segs_Normal's data: the hex digit in bits 0-3, bits 4-6 clear, and
   * bit 7 clear exactly when the decimal point is to be lit.
   */
  function NormalData(v: Byte, dp: DpOption): (d: Byte)
    ensures d % 16 == v % 16
    ensures (d / 16) % 8 == 0
    ensures d < 0x80 <==> dp.DpOn?
  {
    v % 16 + (if dp.DpOn? then 0 else 0x80)
  }

  /** Inverting the decimal-point bit twice gives the pattern back. */
  lemma CustomDataInvolution(v: Byte)
    ensures CustomData(CustomData(v)) == v
  {
  }

  /** The digit position a write addresses. */
  function Position(w: SegWrite): Bit
  {
    w.command % 8
  }

  /** A digit write in hex-decode mode with the decimal point off. */
  function NormalWrite(addr: Byte, v: Byte): SegWrite
  {
    SegWrite(NormalCommand(addr), NormalData(v, DpOff))
  }

  /** `v` shifted right by 4 * i bits, as `Value >> (i * 4)`. */
  function ShiftNibbles(v: nat, i: nat): nat
  {
    if i == 0 then v else ShiftNibbles(v, i - 1) / 16
  }

  /** `v` after i of Segs_16D's in-place divisions by ten. */
  function ShiftDecimal(v: nat, i: nat): nat
  {
    if i == 0 then v else ShiftDecimal(v, i - 1) / 10
  }

  /** The rightmost digit of a line: 3 for the top line, 7 for the bottom one. */
  function LineEnd(line: Line): (t: Byte)
    ensures t == 3 + 4 * LineIndex(line)
  {
    3 + LineIndex(line) * 4
  }

  /** Segs_16H's writes: nibble i of `v` at digit LineEnd - i. */
  function HexWrites(v: UInt16, line: Line): (ws: seq<SegWrite>)
    ensures |ws| == 4
  {
    seq(4, i requires 0 <= i < 4 => NormalWrite(LineEnd(line) - i, Low8(ShiftNibbles(v, i))))
  }

  /** Segs_16D's writes for a value up to 9999: decimal digit i at digit LineEnd - i. */
  function DecimalWrites(v: UInt16, line: Line): (ws: seq<SegWrite>)
    ensures |ws| == 4
  {
    seq(4, i requires 0 <= i < 4 => NormalWrite(LineEnd(line) - i, ShiftDecimal(v, i) % 10))
  }

  /** Segs_SayErr's writes: E, then two `r` patterns. */
  function ErrWrites(line: Line): (ws: seq<SegWrite>)
    ensures |ws| == 3
  {
    var target := LineIndex(line) * 4;
    [NormalWrite(target, 0x0E),
     SegWrite(CustomCommand(target + 1), CustomData(0xEA)),
     SegWrite(CustomCommand(target + 2), CustomData(0xEA))]
  }

  /** Segs_Clear's write for digit `addr`: a blank custom pattern. */
  function ClearWrite(addr: Byte): SegWrite
  {
    SegWrite(CustomCommand(addr), CustomData(0))
  }

  /** Clears of digits lo .. hi - 1, in order. */
  function ClearWrites(lo: nat, hi: nat): (ws: seq<SegWrite>)
    requires lo <= hi <= 0x100
    ensures |ws| == hi - lo
    ensures forall i :: 0 <= i < hi - lo ==> ws[i] == ClearWrite(lo + i)
    decreases hi - lo
  {
    if lo == hi then [] else [ClearWrite(lo)] + ClearWrites(lo + 1, hi)
  }

  /** The number four hex-decoded digits show, the first write being the least significant. */
  function HexShown(ws: seq<SegWrite>): nat
    requires |ws| == 4
  {
    ws[0].data % 16 + 16 * (ws[1].data % 16) + 256 * (ws[2].data % 16) + 4096 * (ws[3].data % 16)
  }

  /** The number four decimal digits show, the first write being the least significant. */
  function DecimalShown(ws: seq<SegWrite>): nat
    requires |ws| == 4
  {
    ws[0].data % 16 + 10 * (ws[1].data % 16) + 100 * (ws[2].data % 16) + 1000 * (ws[3].data % 16)
  }

  /** Reading Segs_16H's digits back gives the value, right-aligned on the line. */
  lemma {:induction false} HexRoundTrip(v: UInt16, line: Line)
    ensures HexShown(HexWrites(v, line)) == v
  {
    var ws := HexWrites(v, line);
    var x1, x2, x3 := v / 16, v / 16 / 16, v / 16 / 16 / 16;
    assert ShiftNibbles(v, 1) == x1 && ShiftNibbles(v, 2) == x2 && ShiftNibbles(v, 3) == x3;
    assert ws[0].data % 16 == v % 16 by { NibbleOfLow8(v); }
    assert ws[1].data % 16 == x1 % 16 by { NibbleOfLow8(x1); }
    assert ws[2].data % 16 == x2 % 16 by { NibbleOfLow8(x2); }
    assert ws[3].data % 16 == x3 % 16 by { NibbleOfLow8(x3); }
    NibblesRecombine(v);
  }

  /** Segs_16H's digits are right-aligned on the line, least significant first. */
  lemma HexLayout(v: UInt16, line: Line)
    ensures forall i :: 0 <= i < 4 ==> Position(HexWrites(v, line)[i]) == 3 + 4 * LineIndex(line) - i
  {
  }

  /** A 16-bit value is the sum of its four nibbles' place values. */
  lemma NibblesRecombine(v: UInt16)
    ensures v % 16 + 16 * (v / 16 % 16) + 256 * (v / 16 / 16 % 16) + 4096 * (v / 16 / 16 / 16 % 16) == v
  {
    var x1, x2, x3 := v / 16, v / 16 / 16, v / 16 / 16 / 16;
    assert v == 16 * x1 + v % 16 && x1 == 16 * x2 + x1 % 16 && x2 == 16 * x3 + x2 % 16 && x3 < 16;
  }

  /** Truncating to a byte keeps the low nibble. */
  lemma NibbleOfLow8(x: nat)
    ensures Low8(x) % 16 == x % 16
  {
    var q, r := x / 0x100, x % 0x100;
    assert x == 16 * (16 * q + r / 16) + r % 16;
  }

  /** Reading Segs_16D's digits back gives the value, each digit a decimal digit. */
  lemma {:induction false} DecimalRoundTrip(v: UInt16, line: Line)
    requires v <= 9999
    ensures DecimalShown(DecimalWrites(v, line)) == v
    ensures forall i :: 0 <= i < 4 ==> DecimalWrites(v, line)[i].data % 16 < 10
  {
    forall i | 0 <= i < 4
      ensures DecimalWrites(v, line)[i].data % 16 == ShiftDecimal(v, i) % 10
    {
      DecimalDigit(v, line, i);
    }
    assert ShiftDecimal(v, 1) == v / 10 && ShiftDecimal(v, 2) == v / 10 / 10;
    assert ShiftDecimal(v, 3) == v / 10 / 10 / 10;
    DigitsRecombine(v);
  }

  /** Segs_16D's `i`-th write carries the `i`-th decimal digit in its low nibble. */
  lemma DecimalDigit(v: UInt16, line: Line, i: nat)
    requires i < 4
    ensures DecimalWrites(v, line)[i].data % 16 == ShiftDecimal(v, i) % 10
  {
    var d := ShiftDecimal(v, i) % 10;
    assert DecimalWrites(v, line)[i] == NormalWrite(LineEnd(line) - i, d);
    assert d % 16 == d;
  }

  /** Segs_16D's digits are right-aligned on the line, least significant first. */
  lemma DecimalLayout(v: UInt16, line: Line)
    ensures forall i :: 0 <= i < 4 ==> Position(DecimalWrites(v, line)[i]) == 3 + 4 * LineIndex(line) - i
  {
  }

  /** A value up to 9999 is the sum of its four decimal digits' place values. */
  lemma DigitsRecombine(v: UInt16)
    requires v <= 9999
    ensures v % 10 + 10 * (v / 10 % 10) + 100 * (v / 10 / 10 % 10) + 1000 * (v / 10 / 10 / 10 % 10) == v
  {
    var x1, x2, x3 := v / 10, v / 10 / 10, v / 10 / 10 / 10;
    assert v == 10 * x1 + v % 10 && x1 == 10 * x2 + x1 % 10 && x2 == 10 * x3 + x2 % 10 && x3 < 10;
  }

  /** The digits a sequence of writes addresses. */
  function Positions(ws: seq<SegWrite>): set<Bit>
  {
    if ws == [] then {} else {Position(ws[0])} + Positions(ws[1..])
  }

  /**
   * Segs_SayErr writes the digits 4 * line .. 4 * line + 2: a decoded E,
   * then twice the custom `r` pattern 0b11101010, which goes out with its
   * decimal-point bit inverted.
   */
  lemma ErrLayout(line: Line)
    ensures forall k :: 0 <= k < 3 ==> Position(ErrWrites(line)[k]) == 4 * LineIndex(line) + k
    ensures ErrWrites(line)[0].data % 16 == 0x0E
    ensures ErrWrites(line)[1].data == ErrWrites(line)[2].data == 0x6A
    ensures CustomData(ErrWrites(line)[1].data) == 0xEA
  {
  }

  /** Clearing digits lo .. hi - 1 addresses exactly those digits. */
  lemma {:induction false} ClearedPositions(lo: nat, hi: nat)
    requires lo <= hi <= 8
    ensures forall p: Bit :: p in Positions(ClearWrites(lo, hi)) <==> lo <= p < hi
    decreases hi - lo
  {
    if lo < hi {
      assert ClearWrites(lo, hi)[1..] == ClearWrites(lo + 1, hi);
      ClearedPositions(lo + 1, hi);
    }
  }

  /** Segs_ClearLine clears exactly the four digits of its line. */
  lemma ClearLinePositions(line: Line)
    ensures var lo := 4 * LineIndex(line);
      Positions(ClearWrites(lo, lo + 4)) == {lo, lo + 1, lo + 2, lo + 3}
  {
    var lo := 4 * LineIndex(line);
    ClearedPositions(lo, lo + 4);
  }

  /** Segs_ClearAll clears all eight digits. */
  lemma ClearAllPositions()
    ensures Positions(ClearWrites(0, 8)) == AllBits
  {
    ClearedPositions(0, 8);
    EveryBit(Positions(ClearWrites(0, 8)));
  }

  /** A set of bit positions holding every position is all of them. */
  lemma EveryBit(s: set<Bit>)
    requires forall p: Bit :: p in s
    ensures s == AllBits
  {
    assert forall p: Bit :: p in AllBits;
  }

  /** The display's port lines and every digit write sent. */
  class Display {
    /** Every (command, data) pair strobed into the display, in order. */
    var out: seq<SegWrite>
    /** PORTA: bit 0 the write strobe, bit 1 the command/data mode line. */
    var porta: Mask
    /** DDRA. */
    var ddra: Mask
    /** PORTB: the byte presented to the display. */
    var portb: Byte
    /** DDRB. */
    var ddrb: Mask

    constructor (pins: Mask)
      ensures out == [] && porta == pins && ddra == {} && portb == 0 && ddrb == {}
    {
      out := [];
      porta := pins;
      ddra := {};
      portb := 0;
      ddrb := {};
    }

    /**
     * One pair: the command byte with the mode line high, strobed; the
     * data byte with the mode line low, strobed.  The strobe line ends high
     * and the mode line low; no other port A bit changes.
     */
    method Send(command: Byte, data: Byte)
      modifies this
      ensures out == old(out) + [SegWrite(command, data)]
      ensures porta == (old(porta) - {ModeLine}) + {StrobeLine}
      ensures portb == data && ddra == old(ddra) && ddrb == old(ddrb)
    {
      portb := command;
      porta := porta + {ModeLine};
      porta := porta - {StrobeLine};
      porta := porta + {StrobeLine};
      portb := data;
      porta := porta - {ModeLine};
      porta := porta - {StrobeLine};
      porta := porta + {StrobeLine};
      out := out + [SegWrite(command, data)];
    }

    /** Segs_Custom. */
    method Custom(addr: Byte, value: Byte)
      modifies this
      ensures out == old(out) + [SegWrite(CustomCommand(addr), CustomData(value))]
      ensures porta == (old(porta) - {ModeLine}) + {StrobeLine}
      ensures ddra == old(ddra) && ddrb == old(ddrb)
    {
      Send(CustomCommand(addr), CustomData(value));
    }

    /** Segs_Normal. */
    method Normal(addr: Byte, value: Byte, dp: DpOption)
      modifies this
      ensures out == old(out) + [SegWrite(NormalCommand(addr), NormalData(value, dp))]
      ensures porta == (old(porta) - {ModeLine}) + {StrobeLine}
      ensures ddra == old(ddra) && ddrb == old(ddrb)
    {
      Send(NormalCommand(addr), NormalData(value, dp));
    }

    /** Segs_Clear. */
    method Clear(addr: Byte)
      modifies this
      ensures out == old(out) + [ClearWrite(addr)]
      ensures porta == (old(porta) - {ModeLine}) + {StrobeLine}
      ensures ddra == old(ddra) && ddrb == old(ddrb)
    {
      Custom(addr, 0);
    }

    /** Segs_16H: the four nibbles of `value`, least significant at the right of the line. */
    method Show16H(value: UInt16, line: Line)
      modifies this
      ensures out == old(out) + HexWrites(value, line)
      ensures ddra == old(ddra) && ddrb == old(ddrb)
    {
      var target := 3 + LineIndex(line) * 4;
      var i := 0;
      while i < 4
        invariant 0 <= i <= 4
        invariant out == old(out) + HexWrites(value, line)[..i]
        invariant ddra == old(ddra) && ddrb == old(ddrb)
      {
        Normal(target - i, Low8(ShiftNibbles(value, i)), DpOff);
        assert HexWrites(value, line)[..i + 1] == HexWrites(value, line)[..i] + [HexWrites(value, line)[i]];
        i := i + 1;
      }
    }

    /**
     * Segs_16D: Err for a value above 9999; otherwise its four decimal
     * digits, least significant at the right of the line.
     */
    method Show16D(value: UInt16, line: Line)
      modifies this
      ensures value > 9999 ==> out == old(out) + ErrWrites(line)
      ensures value <= 9999 ==> out == old(out) + DecimalWrites(value, line)
      ensures ddra == old(ddra) && ddrb == old(ddrb)
    {
      var target := 3 + LineIndex(line) * 4;
      if value > 9999 {
        SayErr(line);
        return;
      }
      var v: nat := value;
      var i := 0;
      while i < 4
        invariant 0 <= i <= 4
        invariant v == ShiftDecimal(value, i)
        invariant out == old(out) + DecimalWrites(value, line)[..i]
        invariant ddra == old(ddra) && ddrb == old(ddrb)
      {
        Normal(target - i, v % 10, DpOff);
        assert DecimalWrites(value, line)[..i + 1] == DecimalWrites(value, line)[..i] + [DecimalWrites(value, line)[i]];
        v := v / 10;
        i := i + 1;
      }
    }

    /**
     * Segs_8H: the high nibble at `addr`, the low nibble at the next
     * digit, which wraps to 0 past digit 7.
     */
    method Show8H(addr: Byte, value: Byte)
      modifies this
      ensures var addr2 := if Low8(addr + 1) > 7 then 0 else Low8(addr + 1);
        out == old(out) + [NormalWrite(addr, value / 16), NormalWrite(addr2, value)]
      ensures addr < 7 ==> Position(out[|out| - 1]) == addr + 1
      ensures addr == 7 ==> Position(out[|out| - 1]) == 0
      ensures (out[|out| - 2].data % 16) * 16 + out[|out| - 1].data % 16 == value
      ensures ddra == old(ddra) && ddrb == old(ddrb)
    {
      // The cap at 0xFF never fires: `Value` is an `unsigned char`.
      var valueCopy: int := value;
      var addr2 := Low8(addr + 1);
      if addr2 > 7 {
        addr2 := 0;
      }
      if valueCopy > 0xFF {
        valueCopy := 0xFF;
      }
      Normal(addr, valueCopy / 16, DpOff);
      Normal(addr2, valueCopy, DpOff);
    }

    /** Segs_ClearAll: digits 0 to 7 cleared, in order. */
    method ClearAll()
      modifies this
      ensures out == old(out) + ClearWrites(0, 8)
      ensures ddra == old(ddra) && ddrb == old(ddrb)
      ensures porta == (old(porta) - {ModeLine}) + {StrobeLine}
    {
      var target := 0;
      while target < 8
        invariant 0 <= target <= 8
        invariant out == old(out) + ClearWrites(0, target)
        invariant ddra == old(ddra) && ddrb == old(ddrb)
        invariant porta == if target == 0 then old(porta) else (old(porta) - {ModeLine}) + {StrobeLine}
      {
        Clear(target);
        assert ClearWrites(0, target + 1) == ClearWrites(0, target) + [ClearWrite(target)];
        target := target + 1;
      }
    }

    /** Segs_ClearLine: the four digits of the line cleared, left to right. */
    method ClearLine(line: Line)
      modifies this
      ensures out == old(out) + ClearWrites(4 * LineIndex(line), 4 * LineIndex(line) + 4)
      ensures ddra == old(ddra) && ddrb == old(ddrb)
      ensures porta == (old(porta) - {ModeLine}) + {StrobeLine}
    {
      var lo := LineIndex(line) * 4;
      var i := lo;
      while i < 4 + LineIndex(line) * 4
        invariant lo <= i <= lo + 4
        invariant out == old(out) + ClearWrites(lo, i)
        invariant ddra == old(ddra) && ddrb == old(ddrb)
        invariant porta == if i == lo then old(porta) else (old(porta) - {ModeLine}) + {StrobeLine}
      {
        Clear(i);
        assert ClearWrites(lo, i + 1) == ClearWrites(lo, i) + [ClearWrite(i)];
        i := i + 1;
      }
    }

    /** Segs_SayErr: E at the line's first digit, `r` at the next two. */
    method SayErr(line: Line)
      modifies this
      ensures out == old(out) + ErrWrites(line)
      ensures ddra == old(ddra) && ddrb == old(ddrb)
    {
      var target := LineIndex(line) * 4;
      Normal(target, 0x0E, DpOff);
      Custom(target + 1, 0xEA);
      Custom(target + 2, 0xEA);
    }

    /**
     * Segs_Init: strobe and mode lines high and outputs, port B all
     * outputs, then every digit cleared.  Afterwards the strobe line is
     * high and the mode line low.
     */
    method Init()
      modifies this
      ensures out == old(out) + ClearWrites(0, 8)
      ensures ddra == old(ddra) + {StrobeLine, ModeLine} && ddrb == AllBits
      ensures porta == (old(porta) - {ModeLine}) + {StrobeLine}
    {
      porta := porta + {StrobeLine, ModeLine};
      ddra := ddra + {StrobeLine, ModeLine};
      ddrb := AllBits;
      ClearAll();
    }
  }
}
