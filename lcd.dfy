/**
 * The character LCD library (SCI/lib/lcd.c) for a 20 x 4 HD44780-style
 * display, as the sequence of instruction and data bytes it sends.  The
 * busy-flag wait before each byte and the port H / port K strobing are
 * not part of this model.
 */
module Lcd {
  import opened Bits
  import opened Text

  /** One byte sent to the display: to its instruction register or to its data register. */
  datatype LcdWrite = Inst(b: Byte) | Data(d: Byte)

  /** The display's size. */
  const Columns: nat := 20
  const Rows: nat := 4

  /** A space character. */
  const Space: Byte := 0x20

  /** The DDRAM address of column 0 of each row (lib header's address scheme 00, 40, 14, 54). */
  function RowBase(iy: nat): (base: Byte)
    requires iy < Rows
  {
    if iy == 0 then 0x00 else if iy == 1 then 0x40 else if iy == 2 then 0x14 else 0x54
  }

  /** LCD_AddrXY's address: column `ix` of row `iy`, or 0 for a position off the display. */
  function AddrXY(ix: Byte, iy: Byte): (a: Byte)
    ensures (ix > 19 || iy > 3) ==> a == 0
    ensures ix <= 19 && iy <= 3 ==> a == RowBase(iy) + ix && a < 0x68
  {
    if ix > 19 || iy > 3 then 0
    else if iy == 0 then ix
    else if iy == 1 then ix + 64
    else if iy == 2 then ix + 20
    else ix + 84
  }

  /** The display position a DDRAM address shows, if any. */
  datatype Position = Position(x: nat, y: nat)

  /** Reference map from an address back to its position; addresses shown nowhere map to (0, 0). */
  function PositionOf(a: Byte): Position
  {
    if a < 0x14 then Position(a, 0)
    else if a < 0x28 then Position(a - 0x14, 2)
    else if 0x40 <= a < 0x54 then Position(a - 0x40, 1)
    else if 0x54 <= a < 0x68 then Position(a - 0x54, 3)
    else Position(0, 0)
  }

  /** Every on-display position has an address that leads back to it. */
  lemma AddrXYRoundTrip(ix: Byte, iy: Byte)
    requires ix < Columns && iy < Rows
    ensures PositionOf(AddrXY(ix, iy)) == Position(ix, iy)
  {
  }

  /** Distinct on-display positions have distinct addresses. */
  lemma AddrXYInjective(ix: Byte, iy: Byte, jx: Byte, jy: Byte)
    requires ix < Columns && iy < Rows && jx < Columns && jy < Rows
    ensures AddrXY(ix, iy) == AddrXY(jx, jy) ==> ix == jx && iy == jy
  {
    AddrXYRoundTrip(ix, iy);
    AddrXYRoundTrip(jx, jy);
  }

  /** LCD_Addr's instruction: the address with bit 7 (the set-DDRAM-address command) set. */
  function AddrCommand(addr: Byte): (c: Byte)
    ensures c >= 0x80 && c % 0x80 == addr % 0x80
  {
    if addr >= 0x80 then addr else addr + 0x80
  }

  /** LCD_DispControl's instruction: display on, plus the cursor bit 1 and the blink bit 0 as asked. */
  function DispControlCommand(cursorOn: Byte, blinkOn: Byte): (c: Byte)
    ensures c / 4 == 0x03
    ensures (c / 2) % 2 == 1 <==> cursorOn != 0
    ensures c % 2 == 1 <==> blinkOn != 0
  {
    0x0C + (if cursorOn != 0 then 0x02 else 0) + (if blinkOn != 0 then 0x01 else 0)
  }

  /** The instruction and data bytes sent to the display. */
  class Display {
    /** Every byte sent, in order. */
    var out: seq<LcdWrite>

    /** Nothing sent yet. */
    constructor ()
      ensures out == []
    {
      out := [];
    }

    /** LCD_Inst: one instruction byte (after the busy-flag wait). */
    method InstByte(val: Byte)
      modifies this
      ensures out == old(out) + [Inst(val)]
    {
      out := out + [Inst(val)];
    }

    /** LCD_Data: one data byte (after the busy-flag wait). */
    method DataByte(val: Byte)
      modifies this
      ensures out == old(out) + [Data(val)]
    {
      out := out + [Data(val)];
    }

    /** LCD_Addr: the set-address instruction for `addr`. */
    method Addr(addr: Byte)
      modifies this
      ensures out == old(out) + [Inst(AddrCommand(addr))]
    {
      InstByte(AddrCommand(addr));
    }

    /** LCD_AddrXY: the set-address instruction for a column and row. */
    method SetAddrXY(ix: Byte, iy: Byte)
      modifies this
      ensures out == old(out) + [Inst(AddrCommand(AddrXY(ix, iy)))]
    {
      if ix > 19 || iy > 3 {
        Addr(0);
      } else if iy == 0 {
        Addr(ix);
      } else if iy == 1 {
        Addr(ix + 64);
      } else if iy == 2 {
        Addr(ix + 20);
      } else {
        Addr(ix + 84);
      }
    }

    /** LCD_String: one data byte per character before the NUL, in order. */
    method String(s: seq<Byte>)
      modifies this
      ensures out == old(out) + DataBytes(CString(s))
    {
      var i := 0;
      while i < |s| && s[i] != Nul
        invariant 0 <= i <= |s|
        invariant Nul !in s[..i]
        invariant out == old(out) + DataBytes(s[..i])
      {
        DataByte(s[i]);
        DataBytesAppend(s[..i], s[i]);
        assert s[..i + 1] == s[..i] + [s[i]];
        i := i + 1;
      }
      CStringEndsAtFirstNul(s, i);
    }

    /** LCD_StringXY: address the position, then the string. */
    method StringXY(ix: Byte, iy: Byte, s: seq<Byte>)
      modifies this
      ensures out == old(out) + [Inst(AddrCommand(AddrXY(ix, iy)))] + DataBytes(CString(s))
    {
      SetAddrXY(ix, iy);
      String(s);
    }

    /** LCD_ClearLine: twenty spaces from column 0 of the row. */
    method ClearLine(iy: Byte)
      modifies this
      ensures out == old(out) + [Inst(AddrCommand(AddrXY(0, iy)))] + DataBytes(Blanks(Columns))
    {
      var blanks := Blanks(Columns) + [Nul];
      CStringOfTerminated(Blanks(Columns));
      StringXY(0, iy, blanks);
    }

    /**
     * LCD_WrappingString: at most the first 80 characters of the C string,
     * character i addressed to column i mod 20 of row i / 20 before it is
     * written.
     */
    method WrappingString(s: seq<Byte>)
      modifies this
      ensures var n := Min(|CString(s)|, Columns * Rows);
        && |out| == |old(out)| + 2 * n
        && out[..|old(out)|] == old(out)
        && forall i :: 0 <= i < n ==>
             out[|old(out)| + 2 * i] == Inst(AddrCommand(AddrXY(i % 20, i / 20)))
             && out[|old(out)| + 2 * i + 1] == Data(s[i])
    {
      var loopEnd := |CString(s)|;
      if loopEnd > 80 {
        loopEnd := 80;
      }
      var i := 0;
      while i < loopEnd
        invariant 0 <= i <= loopEnd <= |s|
        invariant |out| == |old(out)| + 2 * i
        invariant out[..|old(out)|] == old(out)
        invariant forall j :: 0 <= j < i ==>
                    out[|old(out)| + 2 * j] == Inst(AddrCommand(AddrXY(j % 20, j / 20)))
                    && out[|old(out)| + 2 * j + 1] == Data(s[j])
      {
        var x, y;
        if i < 20 {
          x, y := i, 0;
        } else if i < 40 {
          x, y := i - 20, 1;
        } else if i < 60 {
          x, y := i - 40, 2;
        } else {
          x, y := i - 60, 3;
        }
        assert x == i % 20 && y == i / 20;
        ghost var before := out;
        SetAddrXY(x, y);
        DataByte(s[i]);
        assert out == before + [Inst(AddrCommand(AddrXY(i % 20, i / 20))), Data(s[i])];
        forall j | 0 <= j < i + 1
          ensures out[|old(out)| + 2 * j] == Inst(AddrCommand(AddrXY(j % 20, j / 20)))
                  && out[|old(out)| + 2 * j + 1] == Data(s[j])
        {
          if j < i {
            assert out[|old(out)| + 2 * j] == before[|old(out)| + 2 * j];
            assert out[|old(out)| + 2 * j + 1] == before[|old(out)| + 2 * j + 1];
          }
        }
        i := i + 1;
      }
    }

    /** LCD_DispControl. */
    method DispControl(cursorOn: Byte, blinkOn: Byte)
      modifies this
      ensures out == old(out) + [Inst(DispControlCommand(cursorOn, blinkOn))]
    {
      InstByte(DispControlCommand(cursorOn, blinkOn));
    }

    /** LCD_Clear: the clear-display instruction. */
    method Clear()
      modifies this
      ensures out == old(out) + [Inst(0x01)]
    {
      InstByte(0x01);
    }

    /** LCD_Home: the return-home instruction. */
    method Home()
      modifies this
      ensures out == old(out) + [Inst(0x02)]
    {
      InstByte(0x02);
    }
  }

  /** Character i of a wrapped string lands at column i mod 20 of row i / 20. */
  lemma WrappedCharacterPosition(i: nat)
    requires i < Columns * Rows
    ensures PositionOf(AddrXY(i % 20, i / 20)) == Position(i % 20, i / 20)
  {
    AddrXYRoundTrip(i % 20, i / 20);
  }

  /** The smaller of two naturals. */
  function Min(a: nat, b: nat): nat
  {
    if a < b then a else b
  }

  /** Data bytes carrying the characters of `s`. */
  function DataBytes(s: seq<Byte>): (w: seq<LcdWrite>)
    ensures |w| == |s|
    ensures forall i :: 0 <= i < |s| ==> w[i] == Data(s[i])
  {
    if s == [] then [] else [Data(s[0])] + DataBytes(s[1..])
  }

  /** One more character, one more data byte. */
  lemma DataBytesAppend(s: seq<Byte>, c: Byte)
    ensures DataBytes(s + [c]) == DataBytes(s) + [Data(c)]
  {
  }

  /** `n` spaces. */
  function Blanks(n: nat): (s: seq<Byte>)
    ensures |s| == n && Nul !in s
    ensures forall i :: 0 <= i < n ==> s[i] == Space
  {
    if n == 0 then [] else Blanks(n - 1) + [Space]
  }
}
