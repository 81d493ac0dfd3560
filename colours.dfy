/**
 * The chip colours as the sorter's programs exchange them: one character
 * per colour on the serial link (enum Colours), an index into the chip
 * count table (enum ColourCountIndex), and the LCD line that names it.
 */
module Colours {
  import opened Wrappers

  /** The colour characters in ColourCountIndex order: red, green, blue, white, black, other. */
  const ColourChars: seq<char> := ['r', 'g', 'b', 'w', 'k', 'o']

  /** The number of chip colours counted. */
  const ColourCount: int := 6

  /** The ChipCount index of a colour character; None for any other character. */
  function CountIndex(colour: char): (r: Option<nat>)
    ensures r.Some? ==> r.value < ColourCount && ColourChars[r.value] == colour
    ensures r.None? <==> colour !in ColourChars
  {
    match colour
    case 'r' => Some(0)
    case 'g' => Some(1)
    case 'b' => Some(2)
    case 'w' => Some(3)
    case 'k' => Some(4)
    case 'o' => Some(5)
    case _ => None
  }

  /** Every entry of the count table is reached by exactly its own character. */
  lemma CountIndexOfChar(i: nat)
    requires i < ColourCount
    ensures CountIndex(ColourChars[i]) == Some(i)
  {
  }

  /**
   * The LCD line naming a received colour (UpdateColour in operation mode,
   * DisplayIdentifiedColour in test mode); any other character is reported
   * as unexpected.
   */
  function ColourLine(colour: char): (line: string)
    ensures |line| == 20
  {
    match colour
    case 'r' => "Colour : Red        "
    case 'g' => "Colour : Green      "
    case 'b' => "Colour : Blue       "
    case 'w' => "Colour : White      "
    case 'k' => "Colour : Black      "
    case 'o' => "Colour : Other      "
    case _ => "Unexpected character"
  }

  /** The line of an unknown character. */
  const UnexpectedLine: string := "Unexpected character"

  /**
   * Each colour has its own line, and no colour shares the line of an
   * unexpected character.
   */
  lemma ColourLinesDistinct(a: char, b: char)
    requires a in ColourChars
    ensures ColourLine(a) != UnexpectedLine
    ensures b !in ColourChars ==> ColourLine(b) == UnexpectedLine
    ensures ColourLine(a) == ColourLine(b) ==> a == b
  {
    assert ColourLine(a)[9] != UnexpectedLine[9];
    if ColourLine(a) == ColourLine(b) {
      if b in ColourChars {
        assert ColourLine(a)[9..12] == ColourLine(b)[9..12];
      }
    }
  }
}
