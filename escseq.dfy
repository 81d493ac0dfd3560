/**
 * The terminal escape-sequence builders (lib/escseq.c): a cursor position
 * and a cursor movement, each formatted into the caller's buffer.  The
 * buffer is modelled by the text it holds afterwards.  A partner parser
 * for control sequences of the form ESC '[' parameters final-byte (section
 * 5.4 of ECMA-48) reads the sequences back.
 */
module EscSeq {
  import opened Bits
  import opened Text
  import opened Wrappers

  /** The ESC character. */
  const Esc: char := 27 as char

  /** The control sequence introducer ESC '['. */
  const Csi: string := [Esc, '[']

  /** ESC_CursorDirection, in the order of its enum values 0 to 3. */
  datatype Direction = Up | Down | Backwards | Forwards

  /** The direction an `ESC_CursorDirection` value names, if any. */
  function DirectionOf(code: int): (d: Option<Direction>)
    ensures d.None? <==> !(0 <= code < 4)
  {
    if code == 0 then Some(Up)
    else if code == 1 then Some(Down)
    else if code == 2 then Some(Backwards)
    else if code == 3 then Some(Forwards)
    else None
  }

  /**
   * `%i` applied to an `unsigned int` on a 16-bit target: the value is read
   * as a signed `int`, so values from 0x8000 up print as negative numbers.
   */
  function SignedDecimal(v: UInt16): (s: string)
    ensures v < 0x8000 ==> |s| >= 1 && IsDigits(s) && ParseDecimal(s) == v
    ensures v >= 0x8000 ==> |s| >= 2 && s[0] == '-' && IsDigits(s[1..])
                            && ParseDecimal(s[1..]) == 0x1_0000 - v
  {
    if v < 0x8000 then
      DecimalRoundTrip(v);
      Decimal(v)
    else
      var s := ['-'] + Decimal(0x1_0000 - v);
      assert s[1..] == Decimal(0x1_0000 - v);
      DecimalRoundTrip(0x1_0000 - v);
      s
  }

  /** ESC_CursorHome: "ESC [ row ; column H". */
  function CursorHome(row: UInt16, column: UInt16): (r: string)
    ensures |r| >= 5 && r[..2] == Csi && r[|r| - 1] == 'H'
  {
    Csi + SignedDecimal(row) + [';'] + SignedDecimal(column) + ['H']
  }

  /** The final byte ESC_MoveCursor uses for each direction, as coded. */
  function FinalAsCoded(d: Direction): char
  {
    match d
    case Up => 'A'
    case Down => 'B'
    case Backwards => 'C'
    case Forwards => 'D'
  }

  /**
   * The final byte ECMA-48 assigns to each movement: CUU 'A' (section
   * 8.3.22), CUD 'B' (section 8.3.19), CUF 'C' (cursor right, section
   * 8.3.20) and CUB 'D' (cursor left, section 8.3.18).
   */
  function Ecma48Final(d: Direction): (f: char)
    ensures 'A' <= f <= 'D'
  {
    match d
    case Up => 'A'
    case Down => 'B'
    case Forwards => 'C'
    case Backwards => 'D'
  }

  /** The movement ECMA-48 gives a final byte, if it is one of CUU, CUD, CUF and CUB. */
  function Ecma48Direction(f: char): (d: Option<Direction>)
    ensures d.Some? ==> Ecma48Final(d.value) == f
    ensures 'A' <= f <= 'D' ==> d.Some?
  {
    if f == 'A' then Some(Up)
    else if f == 'B' then Some(Down)
    else if f == 'C' then Some(Forwards)
    else if f == 'D' then Some(Backwards)
    else None
  }

  /**
   * ESC_MoveCursor as coded: "ESC [ count" and the direction's final byte;
   * a direction outside the enum leaves the buffer as it was.
   */
  function MoveCursor(buffer: string, direction: int, count: UInt16): (r: string)
    ensures DirectionOf(direction).None? ==> r == buffer
  {
    match DirectionOf(direction)
    case None => buffer
    case Some(d) => Csi + SignedDecimal(count) + [FinalAsCoded(d)]
  }

  /** ESC_MoveCursor with the final bytes ECMA-48 assigns to each movement. */
  function MoveCursorCorrected(buffer: string, direction: int, count: UInt16): (r: string)
    ensures DirectionOf(direction).None? ==> r == buffer
  {
    match DirectionOf(direction)
    case None => buffer
    case Some(d) => Csi + SignedDecimal(count) + [Ecma48Final(d)]
  }

  /** A control sequence: its numeric parameters and its final byte. */
  datatype Control = Control(params: seq<nat>, final: char)

  /** The `;`-separated fields of a parameter string. */
  function Fields(s: string): (fs: seq<string>)
    ensures |fs| >= 1
    decreases |s|
  {
    if s == [] then [[]]
    else if s[0] == ';' then [[]] + Fields(s[1..])
    else
      var rest := Fields(s[1..]);
      [[s[0]] + rest[0]] + rest[1..]
  }

  /** The numbers a list of fields spells, when every field is a non-empty digit string. */
  function Numbers(fs: seq<string>): (ns: Option<seq<nat>>)
    ensures ns.Some? ==> |ns.value| == |fs|
  {
    if fs == [] then Some([])
    else if fs[0] == [] || !IsDigits(fs[0]) then None
    else
      match Numbers(fs[1..])
      case None => None
      case Some(rest) => Some([ParseDecimal(fs[0])] + rest)
  }

  /**
   * Reads a control sequence ESC '[' params final, where params are
   * decimal numbers separated by ';' and the final byte lies in 0x40-0x7E.
   */
  function ParseControl(s: string): (c: Option<Control>)
    ensures c.Some? ==> |s| >= 3 && s[..2] == Csi && c.value.final == s[|s| - 1]
  {
    if |s| < 3 || s[..2] != Csi || !(0x40 <= s[|s| - 1] as int <= 0x7E) then None
    else
      match Numbers(Fields(s[2..|s| - 1]))
      case None => None
      case Some(ns) => Some(Control(ns, s[|s| - 1]))
  }

  /** A field without a ';' is a single field. */
  lemma {:induction false} FieldsOfOne(a: string)
    requires ';' !in a
    ensures Fields(a) == [a]
    decreases |a|
  {
    if a != [] {
      assert a[0] in a && ';' !in a[1..];
      FieldsOfOne(a[1..]);
      assert [a[0]] + a[1..] == a;
    }
  }

  /** A field ended by ';' splits off the front. */
  lemma {:induction false} FieldsOfSplit(a: string, b: string)
    requires ';' !in a
    ensures Fields(a + [';'] + b) == [a] + Fields(b)
    decreases |a|
  {
    if a == [] {
      assert a + [';'] + b == [';'] + b;
      assert ([';'] + b)[1..] == b;
    } else {
      assert (a + [';'] + b)[1..] == a[1..] + [';'] + b;
      FieldsOfSplit(a[1..], b);
      assert [a[0]] + a[1..] == a;
    }
  }

  /** A digit string holds no ';'. */
  lemma DigitsHaveNoSeparator(s: string)
    requires IsDigits(s)
    ensures ';' !in s
  {
    assert forall i :: 0 <= i < |s| ==> s[i] != ';';
  }

  /** The numeric text of a value up to 0x7FFF reads back as the value. */
  lemma NumberRoundTrip(v: UInt16)
    requires v < 0x8000
    ensures var s := SignedDecimal(v);
      s != [] && IsDigits(s) && ';' !in s && Numbers([s]) == Some([v])
  {
    var s := SignedDecimal(v);
    DigitsHaveNoSeparator(s);
    assert [s][1..] == [];
    assert Numbers([s][1..]) == Some([]);
    assert [ParseDecimal(s)] + [] == [v];
  }

  /** Reading a cursor-position sequence back gives its row, its column and 'H'. */
  lemma CursorHomeRoundTrip(row: UInt16, column: UInt16)
    requires row < 0x8000 && column < 0x8000
    ensures ParseControl(CursorHome(row, column)) == Some(Control([row, column], 'H'))
  {
    var a, b := SignedDecimal(row), SignedDecimal(column);
    NumberRoundTrip(row);
    NumberRoundTrip(column);
    var s := CursorHome(row, column);
    assert s[..2] == Csi;
    assert s[2..|s| - 1] == a + [';'] + b;
    FieldsOfSplit(a, b);
    FieldsOfOne(b);
    assert Fields(a + [';'] + b) == [a, b];
    assert [a, b][1..] == [b];
    assert Numbers([a, b]) == Some([row] + [column]);
    assert [row] + [column] == [row, column];
    assert s[|s| - 1] == 'H';
  }

  /** A movement sequence, as coded, reads back as its count and the coded final byte. */
  lemma MoveCursorRoundTrip(buffer: string, direction: int, count: UInt16)
    requires 0 <= direction < 4 && count < 0x8000
    ensures ParseControl(MoveCursor(buffer, direction, count))
              == Some(Control([count], FinalAsCoded(DirectionOf(direction).value)))
  {
    var a := SignedDecimal(count);
    NumberRoundTrip(count);
    FieldsOfOne(a);
    var s := MoveCursor(buffer, direction, count);
    assert s[..2] == Csi;
    assert s[2..|s| - 1] == a;
  }

  /**
   * The corrected sequence reads back as its count and a final byte that
   * ECMA-48 assigns to the requested movement.
   */
  lemma MoveCursorCorrectedRoundTrip(buffer: string, direction: int, count: UInt16)
    requires 0 <= direction < 4 && count < 0x8000
    ensures var c := ParseControl(MoveCursorCorrected(buffer, direction, count));
      && c.Some? && c.value.params == [count]
      && Ecma48Direction(c.value.final) == DirectionOf(direction)
  {
    var a := SignedDecimal(count);
    NumberRoundTrip(count);
    FieldsOfOne(a);
    var s := MoveCursorCorrected(buffer, direction, count);
    assert s[..2] == Csi;
    assert s[2..|s| - 1] == a;
  }

  /**
   * As coded, the two horizontal movements are swapped: the sequence for
   * moving backwards is ECMA-48's cursor-right, and the one for moving
   * forwards is its cursor-left.
   */
  lemma HorizontalMovesSwapped(buffer: string, count: UInt16)
    requires count < 0x8000
    ensures var c := ParseControl(MoveCursor(buffer, 2, count));
      c.Some? && Ecma48Direction(c.value.final) == Some(Forwards)
    ensures var c := ParseControl(MoveCursor(buffer, 3, count));
      c.Some? && Ecma48Direction(c.value.final) == Some(Backwards)
  {
    MoveCursorRoundTrip(buffer, 2, count);
    MoveCursorRoundTrip(buffer, 3, count);
  }

  /** Up and down are as ECMA-48 assigns them. */
  lemma VerticalMovesAgree(buffer: string, count: UInt16)
    requires count < 0x8000
    ensures var c := ParseControl(MoveCursor(buffer, 0, count));
      c.Some? && Ecma48Direction(c.value.final) == Some(Up)
    ensures var c := ParseControl(MoveCursor(buffer, 1, count));
      c.Some? && Ecma48Direction(c.value.final) == Some(Down)
  {
    MoveCursorRoundTrip(buffer, 0, count);
    MoveCursorRoundTrip(buffer, 1, count);
  }

  /** A row or column from 0x8000 up prints with a minus sign, which no control sequence parameter has. */
  lemma LargeValuesPrintNegative(row: UInt16, column: UInt16)
    requires row >= 0x8000
    ensures ParseControl(CursorHome(row, column)) == None
  {
    var a, b := SignedDecimal(row), SignedDecimal(column);
    var s := CursorHome(row, column);
    assert s[2..|s| - 1] == a + [';'] + b;
    assert a == ['-'] + a[1..];
    var p := s[2..|s| - 1];
    var fs := Fields(p);
    assert fs[0][0] == '-' by {
      assert p[0] == '-';
      FirstFieldStart(p);
    }
  }

  /** The first field starts with the first character when that is not a separator. */
  lemma FirstFieldStart(p: string)
    requires p != [] && p[0] != ';'
    ensures Fields(p)[0] != [] && Fields(p)[0][0] == p[0]
  {
  }
}
