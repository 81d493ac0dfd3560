/**
 * The motor test program (MotorTest/Sources/main.c): Up and Down move all
 * three motors together by 50 steps within 0..500, with a ten-tick button
 * lockout that the periodic interrupt counts down.
 */
module MotorTest {
  import opened Bits
  import SW = SwitchLed
  import C = Capstone

  const StepSize: int := 50
  const MaxStep: int := 500
  /** PIT ticks a handled press locks the buttons out for. */
  const LockoutTicks: int := 10

  /** A position the harness can hold: 0..500 in steps of 50. */
  predicate InRange(m: int)
  {
    0 <= m <= MaxStep && m % StepSize == 0
  }

  /**
   * The position after a handled press: Up takes 50 off if that stays
   * at or above 0, otherwise Down adds 50 if that stays at or below 500.
   */
  function PressedStep(m: int, up: bool, down: bool): int
  {
    if up && m - StepSize >= 0 then m - StepSize
    else if down && m + StepSize <= MaxStep then m + StepSize
    else m
  }

  /** A press keeps the position in range and moves it by one step size or not at all. */
  lemma PressStaysInRange(m: int, up: bool, down: bool)
    requires InRange(m)
    ensures InRange(PressedStep(m, up, down))
    ensures PressedStep(m, up, down) in {m - StepSize, m, m + StepSize}
    ensures PressedStep(m, up, down) < m ==> up
    ensures PressedStep(m, up, down) > m ==> down && !(up && m >= StepSize)
  {
  }

  /** Each motor travels exactly 50 steps on a press that moves: 50 pulses. */
  lemma PressIsFiftyPulses(m: int, up: bool, down: bool)
    requires InRange(m) && PressedStep(m, up, down) != m
    ensures var n := PressedStep(m, up, down);
      |C.PulseMasks(C.Steps(m, m, m), C.Steps(n, n, n))| == StepSize
  {
    var n := PressedStep(m, up, down);
    C.PulseCount(C.Steps(m, m, m), C.Steps(n, n, n));
  }

  /**
   * The LEDs a handled press leaves out: yellow, which marks the press, and
   * green or red when the motors moved up or down.
   */
  function PressLeds(before: int, after: int): (leds: Mask)
    ensures SW.Yellow <= leds && leds <= SW.AllLeds
    ensures SW.Green <= leds <==> after < before
    ensures SW.Red <= leds <==> after > before
  {
    SW.Yellow + (if after < before then SW.Green else {}) + (if after > before then SW.Red else {})
  }

  class Harness {
    /** `mStep`: the position all three motors were last sent to. */
    var mStep: int
    /** The volatile `lockout` counter. */
    var lockout: int
    /** The volatile `pitFlag`. */
    var pitFlag: bool
    const board: SW.Board
    const port: C.MotorPort

    /** The motors' counters are at `mStep`, which is in range; the lockout is 0..10. */
    ghost predicate Valid()
      reads this, port
    {
      && InRange(mStep)
      && port.Current() == C.Steps(mStep, mStep, mStep)
      && 0 <= lockout <= LockoutTicks
    }

    /** Start-up: globals, SWLInit and Cap_PortAInit (the other initialisations are not modelled). */
    constructor (pins: Mask, resetLatch: Mask)
      ensures Valid() && fresh(board) && fresh(port)
      ensures mStep == 0 && lockout == 0 && !pitFlag
      ensures board.pt1ad1 == pins - SW.AllLeds && board.lastStates == {}
      ensures port.writes == [C.ClearMask(C.AllButMotorDisable)]
    {
      mStep := 0;
      lockout := 0;
      pitFlag := false;
      board := new SW.Board(pins);
      port := new C.MotorPort(resetLatch);
      new;
      board.Init();
      port.PortAInit();
    }

    /**
     * One pass of the main loop.  A press is handled only when the lockout
     * is 0 and the switches changed; it restarts the lockout and moves the
     * motors to the new position (if any) with Cap_MoveEffector.
     */
    method Pass()
      requires Valid()
      modifies this, board, port
      ensures Valid()
      ensures var sw := old(board.Switches());
        var handled := old(lockout) == 0 && sw != old(board.lastStates);
        && mStep == (if handled then PressedStep(old(mStep), SW.Up <= sw, SW.Down <= sw) else old(mStep))
        && lockout == (if handled then LockoutTicks else old(lockout))
        && board.Switches() == sw
        && board.lastStates == (if old(lockout) == 0 then sw else old(board.lastStates))
        && board.pt1ad1 == old(board.pt1ad1) - (if handled then PressLeds(old(mStep), mStep) else {})
      ensures mStep == old(mStep) ==> port.writes == old(port.writes)
      ensures mStep != old(mStep) ==>
        port.writes == old(port.writes) + C.MoveWrites(old(port.Current()), port.Current())
      ensures pitFlag == old(pitFlag)
    {
      if lockout == 0 {
        var transition := board.SwitchTransition();
        if transition == 1 {
          lockout := LockoutTicks;
          HandlePress();
        }
      }
    }

    /**
     * The body of a handled press: the yellow LED is lit while Up (first)
     * or Down is acted on.
     */
    method HandlePress()
      requires Valid()
      modifies this, board, port
      ensures Valid()
      ensures var sw := old(board.Switches());
        && mStep == PressedStep(old(mStep), SW.Up <= sw, SW.Down <= sw)
        && board.Switches() == sw
      ensures board.pt1ad1 == old(board.pt1ad1) - PressLeds(old(mStep), mStep)
      ensures board.lastStates == old(board.lastStates)
      ensures mStep == old(mStep) ==> port.writes == old(port.writes)
      ensures mStep != old(mStep) ==>
        port.writes == old(port.writes) + C.MoveWrites(old(port.Current()), port.Current())
      ensures lockout == old(lockout) && pitFlag == old(pitFlag)
    {
      ghost var sw := board.Switches();
      board.Set(SW.Yellow);
      var up := board.Pressed(SW.Up);
      assert up == 1 <==> SW.Up <= sw by {
        assert 4 in board.pt1ad1 <==> 4 in sw;
      }
      if up == 1 && mStep - StepSize >= 0 {
        MoveAll(mStep - StepSize, SW.Green);
      } else {
        var down := board.Pressed(SW.Down);
        assert down == 1 <==> SW.Down <= sw by {
          assert 2 in board.pt1ad1 <==> 2 in sw;
        }
        if down == 1 && mStep + StepSize <= MaxStep {
          MoveAll(mStep + StepSize, SW.Red);
        }
      }
      board.Clear(SW.Yellow);
    }

    /** Light `led`, send all three motors to `n` with Cap_MoveEffector, put the LED out. */
    method MoveAll(n: int, led: Mask)
      requires Valid() && InRange(n) && led <= SW.AllLeds
      modifies this, board, port
      ensures Valid() && mStep == n
      ensures port.writes == old(port.writes) + C.MoveWrites(old(port.Current()), port.Current())
      ensures board.Switches() == old(board.Switches())
      ensures board.pt1ad1 == old(board.pt1ad1) - led && board.lastStates == old(board.lastStates)
      ensures lockout == old(lockout) && pitFlag == old(pitFlag)
    {
      board.Set(led);
      mStep := n;
      port.MoveEffector(n, n, n);
      board.Clear(led);
    }

    /** PIT0Int: raise `pitFlag` and count a non-zero lockout down by one. */
    method Pit0Tick()
      requires Valid()
      modifies this
      ensures Valid()
      ensures pitFlag
      ensures lockout == (if old(lockout) != 0 then old(lockout) - 1 else 0)
      ensures mStep == old(mStep)
    {
      pitFlag := true;
      if lockout != 0 {
        lockout := lockout - 1;
      }
    }
  }
}
