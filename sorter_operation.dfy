/**
 * Operation mode of the poker-chip sorter
 * (PokerChipSorter_Operation/Sources/main.c): a four-state cycle run by the
 * main loop while the sorter is running, a per-colour chip counter table,
 * and the port-J and periodic-timer interrupts that start and stop the
 * sorter, switch the display and clear the counts.
 *
 * `IsRunning` is only ever 0 or 1 (it starts at 0, is toggled with `^= 1`
 * and cleared), so it is a `bool`.  The LCD is modelled by which screen or
 * colour line is shown, not by its text layout.
 */
module SorterOperation {
  import opened Bits
  import opened Wrappers
  import opened Colours
  import SW = SwitchLed

  datatype DisplayMode = DisplayStatus | DisplayCount

  datatype OpState = Isolate | Analyse | Pickup | Deliver

  /** The main loop's state transition: Isolate, Analyse, Pickup, Deliver, and round again. */
  function NextState(s: OpState): (r: OpState)
    ensures r != s
  {
    match s
    case Isolate => Analyse
    case Analyse => Pickup
    case Pickup => Deliver
    case Deliver => Isolate
  }

  /** Four passes bring every state back to itself, and no fewer do. */
  lemma StateCycle(s: OpState)
    ensures NextState(NextState(NextState(NextState(s)))) == s
    ensures NextState(NextState(s)) != s && NextState(NextState(NextState(s))) != s
  {
  }

  /** What UpdateDisplay puts on the LCD. */
  datatype Screen =
    | CountScreen(counts: seq<UInt16>)
    | StoppedScreen
    | StateScreen(state: OpState)

  /** Something written to the LCD: a whole screen, or the colour line. */
  datatype Shown = ShowScreen(screen: Screen) | ShowColour(line: string)

  /**
   * UpdateDisplay's choice: the counts in count mode whether or not the
   * sorter runs, otherwise the stopped screen or the current state's screen.
   */
  function SelectScreen(mode: DisplayMode, running: bool, state: OpState, counts: seq<UInt16>): (s: Screen)
    ensures s.CountScreen? <==> mode == DisplayCount
    ensures s.CountScreen? ==> s.counts == counts
    ensures s.StoppedScreen? <==> mode.DisplayStatus? && !running
    ensures s.StateScreen? ==> s.state == state && running
  {
    if mode == DisplayCount then CountScreen(counts)
    else if !running then StoppedScreen
    else StateScreen(state)
  }

  /** PIFJ bit 0 (PJ0 start/stop) and bit 1 (PJ1 display/reset). */
  const PJ0: Mask := {0}
  const PJ1: Mask := {1}

  /** The ticks a handled port-J press locks the buttons out for. */
  const LockoutTicks: int := 10

  class Sorter {
    var isRunning: bool
    var displayMode: DisplayMode
    var opState: OpState
    /** ChipCount[6], indexed by ColourCountIndex. */
    const chipCount: array<UInt16>
    var lockout: UInt16
    var needDisplayUpdate: bool
    /** The pending port-J interrupt flags (PIFJ). */
    var pifj: Mask
    /** Everything shown on the LCD, oldest first. */
    var shown: seq<Shown>
    const board: SW.Board

    ghost predicate Valid()
      reads this
    {
      chipCount.Length == ColourCount
    }

    /** The initialisers of the globals, then SWLInit. */
    constructor (pins: Mask)
      ensures Valid() && fresh(chipCount) && fresh(board)
      ensures !isRunning && displayMode == DisplayStatus && opState == Isolate
      ensures chipCount[..] == [0, 0, 0, 0, 0, 0]
      ensures lockout == 0 && needDisplayUpdate && pifj == {} && shown == []
    {
      isRunning := false;
      displayMode := DisplayStatus;
      opState := Isolate;
      chipCount := new UInt16[ColourCount](_ => 0);
      lockout := 0;
      needDisplayUpdate := true;
      pifj := {};
      shown := [];
      board := new SW.Board(pins);
      new;
      board.Init();
    }

    /** UpdateDisplay. */
    method UpdateDisplay()
      modifies this
      ensures shown == old(shown) + [ShowScreen(SelectScreen(displayMode, isRunning, opState, chipCount[..]))]
      ensures isRunning == old(isRunning) && displayMode == old(displayMode) && opState == old(opState)
      ensures lockout == old(lockout) && needDisplayUpdate == old(needDisplayUpdate) && pifj == old(pifj)
    {
      if displayMode == DisplayCount {
        shown := shown + [ShowScreen(CountScreen(chipCount[..]))];
      } else if !isRunning {
        shown := shown + [ShowScreen(StoppedScreen)];
      } else {
        shown := shown + [ShowScreen(StateScreen(opState))];
      }
    }

    /**
     * UpdateColour: a colour character adds one (modulo 2^16) to its own
     * counter and to no other; any other character stops the sorter.  In
     * status mode the colour line is shown.
     */
    method UpdateColour(colour: char)
      requires Valid()
      modifies this, chipCount
      ensures CountIndex(colour).Some? ==>
        var i := CountIndex(colour).value;
        chipCount[..] == old(chipCount[..])[i := Low16(old(chipCount[i]) as int + 1)] && isRunning == old(isRunning)
      ensures CountIndex(colour).None? ==> chipCount[..] == old(chipCount[..]) && !isRunning
      ensures shown == old(shown) + (if displayMode == DisplayStatus then [ShowColour(ColourLine(colour))] else [])
      ensures displayMode == old(displayMode) && opState == old(opState) && lockout == old(lockout)
      ensures needDisplayUpdate == old(needDisplayUpdate) && pifj == old(pifj)
    {
      var index := CountIndex(colour);
      if index.Some? {
        var i := index.value;
        chipCount[i] := (chipCount[i] as int + 1) % 0x1_0000;
      } else {
        isRunning := false;
      }
      if displayMode == DisplayStatus {
        shown := shown + [ShowColour(ColourLine(colour))];
      }
    }

    /** ResetCount: every counter becomes 0. */
    method ResetCount()
      requires Valid()
      modifies chipCount
      ensures chipCount[..] == [0, 0, 0, 0, 0, 0]
    {
      var i := 0;
      while i < ColourCount
        invariant 0 <= i <= ColourCount
        invariant forall j :: 0 <= j < i ==> chipCount[j] == 0
      {
        chipCount[i] := 0;
        i := i + 1;
      }
    }

    /**
     * One pass of the main loop.  A pending display update is shown first.
     * A stopped sorter lights red, puts green out and changes nothing else;
     * a running one advances its state (counting a red chip on leaving
     * Analyse) and requests a display update.
     */
    method MainPass()
      requires Valid()
      modifies this, chipCount, board
      ensures Valid()
      ensures !old(isRunning) ==>
        && opState == old(opState) && chipCount[..] == old(chipCount[..]) && !isRunning
        && 7 in board.pt1ad1 && 5 !in board.pt1ad1
      ensures old(isRunning) ==>
        && opState == NextState(old(opState)) && needDisplayUpdate && isRunning
        && (old(opState) == Analyse ==> chipCount[..] == old(chipCount[..])[0 := Low16(old(chipCount[0]) as int + 1)])
        && (old(opState) != Analyse ==> chipCount[..] == old(chipCount[..]))
        && 7 !in board.pt1ad1 && 5 in board.pt1ad1 && 6 !in board.pt1ad1
      ensures displayMode == old(displayMode) && lockout == old(lockout) && pifj == old(pifj)
      ensures !old(isRunning) ==> !needDisplayUpdate
      ensures shown == old(shown)
        + (if old(needDisplayUpdate)
           then [ShowScreen(SelectScreen(old(displayMode), old(isRunning), old(opState), old(chipCount[..])))]
           else [])
        + (if old(isRunning) && old(opState) == Analyse && old(displayMode) == DisplayStatus
           then [ShowColour(ColourLine('r'))]
           else [])
      ensures board.Switches() == old(board.Switches())
    {
      if needDisplayUpdate {
        UpdateDisplay();
        needDisplayUpdate := false;
      }
      if !isRunning {
        board.Clear(SW.Green);
        board.Set(SW.Red);
        return;
      }
      board.Clear(SW.Red);
      board.Set(SW.Green);
      board.Set(SW.Yellow);
      Advance();
      board.Clear(SW.Yellow);
      needDisplayUpdate := true;
    }

    /**
     * The state machine's step while running: Isolate, Analyse, Pickup and
     * Deliver in turn, leaving Analyse with a red chip counted.
     */
    method Advance()
      requires Valid() && isRunning
      modifies this, chipCount
      ensures Valid() && isRunning
      ensures opState == NextState(old(opState))
      ensures old(opState) == Analyse ==> chipCount[..] == old(chipCount[..])[0 := Low16(old(chipCount[0]) as int + 1)]
      ensures old(opState) != Analyse ==> chipCount[..] == old(chipCount[..])
      ensures displayMode == old(displayMode) && lockout == old(lockout) && pifj == old(pifj)
      ensures needDisplayUpdate == old(needDisplayUpdate)
      ensures shown == old(shown)
        + (if old(opState) == Analyse && displayMode == DisplayStatus then [ShowColour(ColourLine('r'))] else [])
    {
      match opState {
        case Isolate =>
          opState := Analyse;
        case Analyse =>
          UpdateColour('r');
          opState := Pickup;
        case Pickup =>
          opState := Deliver;
        case Deliver =>
          opState := Isolate;
      }
    }

    /** PIT0Int: a non-zero lockout counts down by one. */
    method Pit0Int()
      modifies this
      ensures lockout == (if old(lockout) != 0 then old(lockout) - 1 else 0)
      ensures isRunning == old(isRunning) && displayMode == old(displayMode) && opState == old(opState)
      ensures needDisplayUpdate == old(needDisplayUpdate) && pifj == old(pifj) && shown == old(shown)
    {
      if lockout != 0 {
        lockout := lockout - 1;
      }
    }

    /**
     * IntJ.  Each pending flag is acknowledged.  With the lockout at 0, PJ0
     * toggles running and restarts the cycle at Isolate; otherwise PJ1
     * clears the counts if Middle is held and else toggles the display
     * mode.  Either restarts the lockout, so PJ1 is ignored when PJ0 acted.
     */
    method IntJ()
      requires Valid()
      modifies this, chipCount
      ensures Valid()
      ensures pifj == old(pifj) - (PJ0 + PJ1)
      ensures var pj0Acts := 0 in old(pifj) && old(lockout) == 0;
        var pj1Acts := !pj0Acts && 1 in old(pifj) && old(lockout) == 0;
        var middle := 0 in board.pt1ad1;
        && isRunning == (if pj0Acts then !old(isRunning) else old(isRunning))
        && opState == (if pj0Acts then Isolate else old(opState))
        && chipCount[..] == (if pj1Acts && middle then [0, 0, 0, 0, 0, 0] else old(chipCount[..]))
        && displayMode == (if pj1Acts && !middle then Toggled(old(displayMode)) else old(displayMode))
        && lockout == (if pj0Acts || pj1Acts then LockoutTicks else old(lockout))
        && needDisplayUpdate == (pj0Acts || pj1Acts || old(needDisplayUpdate))
      ensures shown == old(shown)
    {
      if 0 in pifj {
        pifj := pifj - PJ0;
        if lockout == 0 {
          lockout := LockoutTicks;
          needDisplayUpdate := true;
          isRunning := !isRunning;
          opState := Isolate;
        }
      }
      if 1 in pifj {
        pifj := pifj - PJ1;
        if lockout == 0 {
          lockout := LockoutTicks;
          needDisplayUpdate := true;
          var middle := board.Pressed(SW.Middle);
          if middle == 1 {
            ResetCount();
          } else {
            displayMode := Toggled(displayMode);
          }
        }
      }
    }
  }

  /** `displayMode ^= 1`. */
  function Toggled(m: DisplayMode): (r: DisplayMode)
    ensures r != m
  {
    if m == DisplayStatus then DisplayCount else DisplayStatus
  }
}
