/**
 * Test mode of the poker-chip sorter
 * (PokerChipSorter_Testing/Sources/main.c): Left and Right cycle through
 * the four tests, Up and Down cycle through the seven sorting-test
 * colours while the chip-sorting test is selected, and Middle runs the
 * selected test.  Buttons are debounced by a ten-tick lockout.
 *
 * The two enumerations are kept as the integers the C code steps with
 * `++` and `--`.  The wrap below the first value works only if `--` on it
 * gives -1, that is, if the compiler makes the enumeration type signed;
 * this model assumes it does.
 */
module SorterTesting {
  import opened Bits
  import opened Colours
  import SW = SwitchLed

  // enum SelectedTest
  const TestInstructions: int := 0
  const TestChipIsolator: int := 1
  const TestColourIdentification: int := 2
  const TestChipSorting: int := 3

  // enum SortingTestColour: Instructions, then Red .. Other
  const SortingInstructions: int := 0
  const SortingOther: int := 6

  /** Right: the next test, wrapping from ChipSorting to Instructions. */
  function NextTest(t: int): (r: int)
    requires TestInstructions <= t <= TestChipSorting
    ensures TestInstructions <= r <= TestChipSorting
  {
    if t + 1 > TestChipSorting then TestInstructions else t + 1
  }

  /** Left: the previous test, wrapping from Instructions to ChipSorting. */
  function PrevTest(t: int): (r: int)
    requires TestInstructions <= t <= TestChipSorting
    ensures TestInstructions <= r <= TestChipSorting
  {
    if t - 1 < TestInstructions then TestChipSorting else t - 1
  }

  /** Left undoes Right and Right undoes Left; four presses of either come back. */
  lemma TestMenuCycle(t: int)
    requires TestInstructions <= t <= TestChipSorting
    ensures PrevTest(NextTest(t)) == t && NextTest(PrevTest(t)) == t
    ensures NextTest(NextTest(NextTest(NextTest(t)))) == t
    ensures NextTest(t) != t && PrevTest(t) != t
  {
  }

  /** Up: the next sorting colour, wrapping from Other to Instructions. */
  function NextColour(c: int): (r: int)
    requires SortingInstructions <= c <= SortingOther
    ensures SortingInstructions <= r <= SortingOther
  {
    if c + 1 > SortingOther then SortingInstructions else c + 1
  }

  /** Down: the previous sorting colour, wrapping from Instructions to Other. */
  function PrevColour(c: int): (r: int)
    requires SortingInstructions <= c <= SortingOther
    ensures SortingInstructions <= r <= SortingOther
  {
    if c - 1 < SortingInstructions then SortingOther else c - 1
  }

  /** Down undoes Up and Up undoes Down. */
  lemma ColourMenuCycle(c: int)
    requires SortingInstructions <= c <= SortingOther
    ensures PrevColour(NextColour(c)) == c && NextColour(PrevColour(c)) == c
    ensures NextColour(c) != c && PrevColour(c) != c
  {
  }

  /** The line UpdateSortingColour shows for a sorting colour. */
  function SortingLine(c: int): (line: string)
    requires SortingInstructions <= c <= SortingOther
    ensures |line| == 20
    ensures c != SortingInstructions ==> line == ColourLine(ColourChars[c - 1])
  {
    if c == SortingInstructions then "Up/Down swaps colour" else ColourLine(ColourChars[c - 1])
  }

  /** Which test routine PerformTest runs. */
  datatype TestRun = NoTest | IsolatorTest | ColourTest | SortingTest(colour: int)

  /** PerformTest: dispatch on the selected test; Instructions runs nothing. */
  function PerformTest(t: int, c: int): (r: TestRun)
    requires TestInstructions <= t <= TestChipSorting
    ensures r == NoTest <==> t == TestInstructions
    ensures r.SortingTest? <==> t == TestChipSorting
    ensures r.SortingTest? ==> r.colour == c
  {
    if t == TestChipIsolator then IsolatorTest
    else if t == TestColourIdentification then ColourTest
    else if t == TestChipSorting then SortingTest(c)
    else NoTest
  }

  /** The button a handled press acts on, in the order the main loop tests them. */
  datatype Press = ColourUp | ColourDown | TestLeft | TestRight | StartTest | NoPress

  /** The first of the main loop's tests that the switch state `sw` satisfies. */
  function Decode(t: int, sw: Mask): (p: Press)
    ensures p == ColourUp <==> t == TestChipSorting && SW.Up <= sw
    ensures p == ColourDown <==> t == TestChipSorting && !(SW.Up <= sw) && SW.Down <= sw
    ensures var menu := t == TestChipSorting && (SW.Up <= sw || SW.Down <= sw);
      && (p == TestLeft <==> !menu && SW.Left <= sw)
      && (p == TestRight <==> !menu && !(SW.Left <= sw) && SW.Right <= sw)
      && (p == StartTest <==> !menu && !(SW.Left <= sw) && !(SW.Right <= sw) && SW.Middle <= sw)
      && (p == NoPress <==> !menu && !(SW.Left <= sw) && !(SW.Right <= sw) && !(SW.Middle <= sw))
  {
    if t == TestChipSorting && SW.Up <= sw then ColourUp
    else if t == TestChipSorting && SW.Down <= sw then ColourDown
    else if SW.Left <= sw then TestLeft
    else if SW.Right <= sw then TestRight
    else if SW.Middle <= sw then StartTest
    else NoPress
  }

  /** Something written to the LCD. */
  datatype Shown = TestScreen(test: int) | SortingColour(line: string) | IdentifiedColour(line: string)

  class TestMenu {
    var currentTest: int
    var sortingTestColour: int
    /** The volatile `buttonLockout`. */
    var buttonLockout: UInt16
    /** Everything shown on the LCD, oldest first. */
    var shown: seq<Shown>
    /** Bytes sent on SCI0, oldest first. */
    var sent: seq<char>
    const board: SW.Board

    ghost predicate Valid()
      reads this
    {
      && TestInstructions <= currentTest <= TestChipSorting
      && SortingInstructions <= sortingTestColour <= SortingOther
    }

    /** Start-up: Instructions and Red selected, the instructions shown, green lit. */
    constructor (pins: Mask)
      ensures Valid() && fresh(board)
      ensures currentTest == TestInstructions && sortingTestColour == 1 && buttonLockout == 0
      ensures shown == [TestScreen(TestInstructions)] && sent == []
      ensures 5 in board.pt1ad1
    {
      currentTest := TestInstructions;
      sortingTestColour := 1;
      buttonLockout := 0;
      shown := [TestScreen(TestInstructions)];
      sent := [];
      board := new SW.Board(pins);
      new;
      board.Init();
      board.Set(SW.Green);
    }

    /**
     * One pass of the main loop.  A press is handled only when the lockout
     * is 0 and the switches changed; it restarts the lockout and acts on
     * the first button the main loop tests for.  `reply` is the character
     * SCI0_BRead would return if the colour test runs.
     */
    method Pass(reply: char)
      requires Valid()
      modifies this, board
      ensures Valid()
      ensures var sw := old(board.Switches());
        var handled := old(buttonLockout) == 0 && sw != old(board.lastStates);
        var p := if handled then Decode(old(currentTest), sw) else NoPress;
        && buttonLockout == (if handled then 10 else old(buttonLockout))
        && sortingTestColour == (match p
             case ColourUp => NextColour(old(sortingTestColour))
             case ColourDown => PrevColour(old(sortingTestColour))
             case _ => old(sortingTestColour))
        && currentTest == (match p
             case TestLeft => PrevTest(old(currentTest))
             case TestRight => NextTest(old(currentTest))
             case _ => old(currentTest))
        && shown == old(shown) + (match p
             case ColourUp => [SortingColour(SortingLine(sortingTestColour))]
             case ColourDown => [SortingColour(SortingLine(sortingTestColour))]
             case TestLeft => [TestScreen(currentTest)]
             case TestRight => [TestScreen(currentTest)]
             case StartTest => RunOutput(PerformTest(currentTest, sortingTestColour), reply)
             case NoPress => [])
        && sent == old(sent) + (if p == StartTest && currentTest == TestColourIdentification then ['a'] else [])
        && board.pt1ad1 == (if p == StartTest then old(board.pt1ad1) + SW.Green - SW.Red else old(board.pt1ad1))
        && board.lastStates == (if old(buttonLockout) == 0 then sw else old(board.lastStates))
    {
      if buttonLockout == 0 {
        var transition := board.SwitchTransition();
        if transition == 1 {
          buttonLockout := 10;
          var p := ReadPress();
          Act(p, reply);
        }
      }
    }

    /** The main loop's button tests, in order, on the switches as they read now. */
    method ReadPress() returns (p: Press)
      requires Valid()
      ensures p == Decode(currentTest, board.Switches())
    {
      ghost var sw := board.Switches();
      var up := board.Pressed(SW.Up);
      var down := board.Pressed(SW.Down);
      var left := board.Pressed(SW.Left);
      var right := board.Pressed(SW.Right);
      var middle := board.Pressed(SW.Middle);
      assert up == 1 <==> SW.Up <= sw by { assert 4 in board.pt1ad1 <==> 4 in sw; }
      assert down == 1 <==> SW.Down <= sw by { assert 2 in board.pt1ad1 <==> 2 in sw; }
      assert left == 1 <==> SW.Left <= sw by { assert 3 in board.pt1ad1 <==> 3 in sw; }
      assert right == 1 <==> SW.Right <= sw by { assert 1 in board.pt1ad1 <==> 1 in sw; }
      assert middle == 1 <==> SW.Middle <= sw by { assert 0 in board.pt1ad1 <==> 0 in sw; }
      if currentTest == TestChipSorting && up == 1 {
        p := ColourUp;
      } else if currentTest == TestChipSorting && down == 1 {
        p := ColourDown;
      } else if left == 1 {
        p := TestLeft;
      } else if right == 1 {
        p := TestRight;
      } else if middle == 1 {
        p := StartTest;
      } else {
        p := NoPress;
      }
    }

    /**
     * The branch the main loop takes for a handled press: step a menu and
     * show it, or run the selected test with the red LED lit.
     */
    method Act(p: Press, reply: char)
      requires Valid()
      requires p == ColourUp || p == ColourDown ==> currentTest == TestChipSorting
      modifies this, board
      ensures Valid()
      ensures buttonLockout == old(buttonLockout)
      ensures sortingTestColour == (match p
           case ColourUp => NextColour(old(sortingTestColour))
           case ColourDown => PrevColour(old(sortingTestColour))
           case _ => old(sortingTestColour))
      ensures currentTest == (match p
           case TestLeft => PrevTest(old(currentTest))
           case TestRight => NextTest(old(currentTest))
           case _ => old(currentTest))
      ensures shown == old(shown) + (match p
           case ColourUp => [SortingColour(SortingLine(sortingTestColour))]
           case ColourDown => [SortingColour(SortingLine(sortingTestColour))]
           case TestLeft => [TestScreen(currentTest)]
           case TestRight => [TestScreen(currentTest)]
           case StartTest => RunOutput(PerformTest(currentTest, sortingTestColour), reply)
           case NoPress => [])
      ensures sent == old(sent) + (if p == StartTest && currentTest == TestColourIdentification then ['a'] else [])
      ensures board.pt1ad1 == (if p == StartTest then old(board.pt1ad1) + SW.Green - SW.Red else old(board.pt1ad1))
      ensures board.lastStates == old(board.lastStates)
    {
      match p
      case ColourUp =>
        sortingTestColour := NextColour(sortingTestColour);
        shown := shown + [SortingColour(SortingLine(sortingTestColour))];
      case ColourDown =>
        sortingTestColour := PrevColour(sortingTestColour);
        shown := shown + [SortingColour(SortingLine(sortingTestColour))];
      case TestLeft =>
        currentTest := PrevTest(currentTest);
        shown := shown + [TestScreen(currentTest)];
      case TestRight =>
        currentTest := NextTest(currentTest);
        shown := shown + [TestScreen(currentTest)];
      case StartTest =>
        board.Set(SW.Red);
        board.Clear(SW.Green);
        RunTest(reply);
        board.Set(SW.Green);
        board.Clear(SW.Red);
      case NoPress =>
    }

    /**
     * PerformTest with its LCD and serial effects: the colour test sends
     * 'a' and shows the line of the character that comes back; the
     * isolator and sorting tests have empty bodies.
     */
    method RunTest(reply: char)
      requires Valid()
      modifies this
      ensures Valid()
      ensures shown == old(shown) + RunOutput(PerformTest(currentTest, sortingTestColour), reply)
      ensures sent == old(sent) + (if currentTest == TestColourIdentification then ['a'] else [])
      ensures currentTest == old(currentTest) && sortingTestColour == old(sortingTestColour)
      ensures buttonLockout == old(buttonLockout)
    {
      match PerformTest(currentTest, sortingTestColour) {
        case ColourTest =>
          sent := sent + ['a'];
          shown := shown + [IdentifiedColour(ColourLine(reply))];
        case _ =>
      }
    }

    /** PIT0Int: a non-zero lockout counts down by one. */
    method Pit0Int()
      modifies this
      ensures buttonLockout == (if old(buttonLockout) != 0 then old(buttonLockout) - 1 else 0)
      ensures currentTest == old(currentTest) && sortingTestColour == old(sortingTestColour)
      ensures shown == old(shown) && sent == old(sent)
    {
      if buttonLockout != 0 {
        buttonLockout := buttonLockout - 1;
      }
    }
  }

  /** What a test run shows on the LCD. */
  function RunOutput(run: TestRun, reply: char): seq<Shown>
  {
    if run == ColourTest then [IdentifiedColour(ColourLine(reply))] else []
  }
}
