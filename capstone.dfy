/**
 * Port A of the delta-robot controller (lib/Capstone.c): masked
 * read-modify-write of the PORTA output latch, the three stepper motors
 * driven through it, and the fail-fast inverse-kinematics wrapper.
 *
 * PORTA is modelled as the set of positions of its 1-bits (a `Mask`)
 * together with the log of every masked write issued to it, so that the
 * order of direction writes, enable and step pulses can be stated: `|=` is
 * union, `&= ~` is difference and `^=` is symmetric difference.  The static
 * step counters of Cap_MoveEffector are fields that persist between calls.
 */
module Capstone {
  import opened Wrappers
  import opened Bits

  // PORTA bit assignments (lib/Capstone.h)
  const PumpControl: Mask := {7}
  const MotorDisable: Mask := {6}
  const Motor3Direction: Mask := {5}
  const Motor3StepPulse: Mask := {4}
  const Motor2Direction: Mask := {3}
  const Motor2StepPulse: Mask := {2}
  const Motor1Direction: Mask := {1}
  const Motor1StepPulse: Mask := {0}

  /** The three StepPulse bits together. */
  const StepPulseBits: Mask := {0, 2, 4}
  /** The three Direction bits together. */
  const DirectionBits: Mask := {1, 3, 5}
  /** `~MotorDisable`. */
  const AllButMotorDisable: Mask := {0, 1, 2, 3, 4, 5, 7}

  /** The masks above have the values of the header's enumeration. */
  lemma MaskValues()
    ensures ByteValue(PumpControl) == 0x80 && ByteValue(MotorDisable) == 0x40
    ensures ByteValue(Motor3Direction) == 0x20 && ByteValue(Motor3StepPulse) == 0x10
    ensures ByteValue(Motor2Direction) == 0x08 && ByteValue(Motor2StepPulse) == 0x04
    ensures ByteValue(Motor1Direction) == 0x02 && ByteValue(Motor1StepPulse) == 0x01
    ensures ByteValue(AllButMotorDisable) == 0xBF && ByteValue(AllBits) == 0xFF && ByteValue({}) == 0
  {
  }

  /** Motor steps in one revolution of an arm. */
  const StepsPerRev: int := 3200

  // ---------------------------------------------------------------------
  // PORTA writes
  // ---------------------------------------------------------------------

  /** One masked write to PORTA: `|= mask`, `&= ~mask` or `^= mask`. */
  datatype PortWrite = SetMask(mask: Mask) | ClearMask(mask: Mask) | ToggleMask(mask: Mask)

  /** The latch value after one write. */
  function Apply(p: Mask, w: PortWrite): Mask
  {
    match w
    case SetMask(m) => p + m
    case ClearMask(m) => p - m
    case ToggleMask(m) => (p - m) + (m - p)
  }

  /**
   * A masked write changes only the bits of its mask: `|=` drives them
   * high, `&= ~` low, `^=` inverts them.
   */
  lemma ApplyOnlyTouchesMask(p: Mask, w: PortWrite)
    ensures forall b: Bit :: b !in w.mask ==> (b in Apply(p, w) <==> b in p)
    ensures forall b: Bit :: b in w.mask ==> (b in Apply(p, w) <==> (w.SetMask? || (w.ToggleMask? && b !in p)))
  {
  }

  /** The latch value after a sequence of writes, oldest first. */
  function Replay(p: Mask, ws: seq<PortWrite>): Mask
    decreases |ws|
  {
    if ws == [] then p else Replay(Apply(p, ws[0]), ws[1..])
  }

  /** Replaying two batches of writes one after the other is replaying their concatenation. */
  lemma {:induction false} ReplayAppend(p: Mask, a: seq<PortWrite>, b: seq<PortWrite>)
    ensures Replay(p, a + b) == Replay(Replay(p, a), b)
    decreases |a|
  {
    if a == [] {
      assert a + b == b;
    } else {
      assert (a + b)[1..] == a[1..] + b;
      ReplayAppend(Apply(p, a[0]), a[1..], b);
    }
  }

  lemma ReplayOne(p: Mask, w: PortWrite)
    ensures Replay(p, [w]) == Apply(p, w)
  {
    assert [w][1..] == [];
  }

  lemma AppendAssoc<T>(a: seq<T>, b: seq<T>, c: seq<T>)
    ensures (a + b) + c == a + (b + c)
  {
  }

  // ---------------------------------------------------------------------
  // Motor motion, as a function of the step counters
  // ---------------------------------------------------------------------

  /** Step counts of the three motors. */
  datatype Steps = Steps(m1: int, m2: int, m3: int)

  function Dist(c: int, t: int): nat
  {
    if c <= t then t - c else c - t
  }

  function Max(a: nat, b: nat): nat
  {
    if a < b then b else a
  }

  /** The number of steps the furthest motor still has to make. */
  function MaxDist(c: Steps, t: Steps): nat
  {
    Max(Dist(c.m1, t.m1), Max(Dist(c.m2, t.m2), Dist(c.m3, t.m3)))
  }

  function StepToward(c: int, t: int): int
  {
    if c < t then c + 1 else if c > t then c - 1 else c
  }

  /** The counters after one pass of the stepping loop. */
  function Advance(c: Steps, t: Steps): Steps
  {
    Steps(StepToward(c.m1, t.m1), StepToward(c.m2, t.m2), StepToward(c.m3, t.m3))
  }

  /** `motorsToMove` of one pass: the StepPulse bit of every motor not yet at its target. */
  function PendingMask(c: Steps, t: Steps): Mask
  {
    (if c.m1 != t.m1 then Motor1StepPulse else {})
    + (if c.m2 != t.m2 then Motor2StepPulse else {})
    + (if c.m3 != t.m3 then Motor3StepPulse else {})
  }

  /** The step-pulse masks of the passes of the stepping loop, in order. */
  function PulseMasks(c: Steps, t: Steps): seq<Mask>
    decreases Dist(c.m1, t.m1) + Dist(c.m2, t.m2) + Dist(c.m3, t.m3)
  {
    if c == t then [] else [PendingMask(c, t)] + PulseMasks(Advance(c, t), t)
  }

  /** Reference description of pass `k`: motor i pulses exactly while k is below its distance. */
  function PassMask(k: nat, c: Steps, t: Steps): Mask
  {
    (if k < Dist(c.m1, t.m1) then Motor1StepPulse else {})
    + (if k < Dist(c.m2, t.m2) then Motor2StepPulse else {})
    + (if k < Dist(c.m3, t.m3) then Motor3StepPulse else {})
  }

  /** Cap_MotorStep(mask) for each mask: raise the mask bits, then lower them. */
  function PulseWrites(masks: seq<Mask>): seq<PortWrite>
  {
    if masks == [] then [] else [SetMask(masks[0]), ClearMask(masks[0])] + PulseWrites(masks[1..])
  }

  /** Cap_SetMotorDirection: clear the bit to count up, set it to count down, leave it when there. */
  function DirectionWrite(dirMask: Mask, c: int, t: int): seq<PortWrite>
  {
    if c < t then [ClearMask(dirMask)] else if c > t then [SetMask(dirMask)] else []
  }

  function DirectionWrites(c: Steps, t: Steps): seq<PortWrite>
  {
    DirectionWrite(Motor1Direction, c.m1, t.m1)
    + DirectionWrite(Motor2Direction, c.m2, t.m2)
    + DirectionWrite(Motor3Direction, c.m3, t.m3)
  }

  /** Every write Cap_MoveEffector issues to PORTA, from counters `c` to targets `t`. */
  function MoveWrites(c: Steps, t: Steps): seq<PortWrite>
  {
    DirectionWrites(c, t) + [ClearMask(MotorDisable)] + PulseWrites(PulseMasks(c, t)) + [SetMask(MotorDisable)]
  }

  /** Bitwise union of a sequence of masks. */
  function Union(masks: seq<Mask>): Mask
  {
    if masks == [] then {} else masks[0] + Union(masks[1..])
  }

  /** The latch after Cap_SetMotorDirection. */
  function DirectionLatch(p: Mask, dirMask: Mask, c: int, t: int): Mask
  {
    if c < t then p - dirMask else if c > t then p + dirMask else p
  }

  /** The latch after the three direction writes of a move. */
  function DirectionsLatch(p: Mask, c: Steps, t: Steps): Mask
  {
    DirectionLatch(DirectionLatch(DirectionLatch(p, Motor1Direction, c.m1, t.m1),
                                  Motor2Direction, c.m2, t.m2),
                   Motor3Direction, c.m3, t.m3)
  }

  /** The latch after a whole move: directions, enable, every pulse, disable. */
  function MoveLatch(p: Mask, c: Steps, t: Steps): Mask
  {
    ((DirectionsLatch(p, c, t) - MotorDisable) - PendingMask(c, t)) + MotorDisable
  }

  // ---------------------------------------------------------------------
  // Properties of the motion
  // ---------------------------------------------------------------------

  lemma AdvanceDist(c: Steps, t: Steps)
    requires c != t
    ensures MaxDist(Advance(c, t), t) == MaxDist(c, t) - 1
    ensures Dist(Advance(c, t).m1, t.m1) == if c.m1 == t.m1 then 0 else Dist(c.m1, t.m1) - 1
    ensures Dist(Advance(c, t).m2, t.m2) == if c.m2 == t.m2 then 0 else Dist(c.m2, t.m2) - 1
    ensures Dist(Advance(c, t).m3, t.m3) == if c.m3 == t.m3 then 0 else Dist(c.m3, t.m3) - 1
  {
  }

  /** The loop makes exactly as many passes as the furthest motor has steps to go. */
  lemma {:induction false} PulseCount(c: Steps, t: Steps)
    ensures |PulseMasks(c, t)| == MaxDist(c, t)
    decreases MaxDist(c, t)
  {
    if c != t {
      AdvanceDist(c, t);
      PulseCount(Advance(c, t), t);
    }
  }

  /**
   * Pass k pulses motor i exactly when k is below that motor's distance to
   * its target: every motor gets one pulse per step it has to make, all start
   * together, and each drops out once it arrives.
   */
  lemma {:induction false} PulseMaskAt(c: Steps, t: Steps, k: nat)
    requires k < |PulseMasks(c, t)|
    ensures PulseMasks(c, t)[k] == PassMask(k, c, t)
    ensures PulseMasks(c, t)[k] != {}
    ensures PulseMasks(c, t)[k] <= StepPulseBits
    decreases k
  {
    if k > 0 {
      AdvanceDist(c, t);
      PulseMaskAt(Advance(c, t), t, k - 1);
    }
  }

  /** A motor that has stopped pulsing never pulses again in the same move. */
  lemma PulseMasksShrink(c: Steps, t: Steps, k: nat)
    requires k + 1 < |PulseMasks(c, t)|
    ensures PulseMasks(c, t)[k + 1] <= PulseMasks(c, t)[k]
  {
    PulseMaskAt(c, t, k);
    PulseMaskAt(c, t, k + 1);
  }

  /** The loop's end test: no motor is pending exactly when every counter is at its target. */
  lemma PendingMaskZero(c: Steps, t: Steps)
    ensures PendingMask(c, t) == {} <==> c == t
  {
  }

  lemma PendingShrinks(c: Steps, t: Steps)
    ensures PendingMask(Advance(c, t), t) <= PendingMask(c, t)
  {
  }

  /** The pulses of a move cover exactly the motors that were away from their targets. */
  lemma {:induction false} UnionPulseMasks(c: Steps, t: Steps)
    ensures Union(PulseMasks(c, t)) == PendingMask(c, t)
    decreases Dist(c.m1, t.m1) + Dist(c.m2, t.m2) + Dist(c.m3, t.m3)
  {
    if c != t {
      var ms := PulseMasks(c, t);
      assert ms[1..] == PulseMasks(Advance(c, t), t);
      UnionPulseMasks(Advance(c, t), t);
      PendingShrinks(c, t);
    }
  }

  lemma {:induction false} UnionAppend(a: seq<Mask>, b: seq<Mask>)
    ensures Union(a + b) == Union(a) + Union(b)
    decreases |a|
  {
    if a == [] {
      assert a + b == b;
    } else {
      assert (a + b)[1..] == a[1..] + b;
      UnionAppend(a[1..], b);
    }
  }

  lemma {:induction false} PulseWritesAppend(a: seq<Mask>, b: seq<Mask>)
    ensures PulseWrites(a + b) == PulseWrites(a) + PulseWrites(b)
    decreases |a|
  {
    if a == [] {
      assert a + b == b;
    } else {
      assert (a + b)[1..] == a[1..] + b;
      PulseWritesAppend(a[1..], b);
    }
  }

  /** One pulse leaves its mask bits low and every other bit as it was. */
  lemma ReplayPulse(p: Mask, m: Mask)
    ensures Replay(p, PulseWrites([m])) == p - m
  {
    assert PulseWrites([m]) == [SetMask(m), ClearMask(m)];
    assert [SetMask(m), ClearMask(m)][1..] == [ClearMask(m)];
    ReplayOne(p + m, ClearMask(m));
    assert (p + m) - m == p - m;
  }

  /** Each pulse raises and lowers its mask, so after all of them those bits are low. */
  lemma {:induction false} ReplayPulses(p: Mask, masks: seq<Mask>)
    ensures Replay(p, PulseWrites(masks)) == p - Union(masks)
    decreases |masks|
  {
    if masks != [] {
      var m := masks[0];
      assert PulseWrites(masks) == PulseWrites([m]) + PulseWrites(masks[1..]);
      ReplayAppend(p, PulseWrites([m]), PulseWrites(masks[1..]));
      ReplayPulse(p, m);
      ReplayPulses(p - m, masks[1..]);
      assert (p - m) - Union(masks[1..]) == p - Union(masks);
    }
  }

  lemma {:induction false} PulseWritesLength(masks: seq<Mask>)
    ensures |PulseWrites(masks)| == 2 * |masks|
    decreases |masks|
  {
    if masks != [] {
      PulseWritesLength(masks[1..]);
    }
  }

  lemma {:induction false} PulseWritesAt(masks: seq<Mask>, j: nat)
    requires j < 2 * |masks|
    ensures |PulseWrites(masks)| == 2 * |masks|
    ensures PulseWrites(masks)[j] == if j % 2 == 0 then SetMask(masks[j / 2]) else ClearMask(masks[j / 2])
    decreases |masks|
  {
    PulseWritesLength(masks);
    if j >= 2 {
      PulseWritesAt(masks[1..], j - 2);
    }
  }

  lemma ReplayDirectionWrite(p: Mask, dirMask: Mask, c: int, t: int)
    ensures Replay(p, DirectionWrite(dirMask, c, t)) == DirectionLatch(p, dirMask, c, t)
  {
    if c < t {
      ReplayOne(p, ClearMask(dirMask));
    } else if c > t {
      ReplayOne(p, SetMask(dirMask));
    }
  }

  lemma ReplayDirections(p: Mask, c: Steps, t: Steps)
    ensures Replay(p, DirectionWrites(c, t)) == DirectionsLatch(p, c, t)
  {
    var d1 := DirectionWrite(Motor1Direction, c.m1, t.m1);
    var d2 := DirectionWrite(Motor2Direction, c.m2, t.m2);
    var d3 := DirectionWrite(Motor3Direction, c.m3, t.m3);
    ReplayAppend(p, d1 + d2, d3);
    ReplayAppend(p, d1, d2);
    ReplayDirectionWrite(p, Motor1Direction, c.m1, t.m1);
    ReplayDirectionWrite(Replay(p, d1), Motor2Direction, c.m2, t.m2);
    ReplayDirectionWrite(Replay(p, d1 + d2), Motor3Direction, c.m3, t.m3);
  }

  /** Replaying the writes of a move gives the latch MoveLatch describes. */
  lemma ReplayMove(p: Mask, c: Steps, t: Steps)
    ensures Replay(p, MoveWrites(c, t)) == MoveLatch(p, c, t)
  {
    var dw := DirectionWrites(c, t);
    var pw := PulseWrites(PulseMasks(c, t));
    ReplayAppend(p, dw + [ClearMask(MotorDisable)] + pw, [SetMask(MotorDisable)]);
    ReplayAppend(p, dw + [ClearMask(MotorDisable)], pw);
    ReplayAppend(p, dw, [ClearMask(MotorDisable)]);
    ReplayDirections(p, c, t);
    ReplayOne(DirectionsLatch(p, c, t), ClearMask(MotorDisable));
    ReplayPulses(DirectionsLatch(p, c, t) - MotorDisable, PulseMasks(c, t));
    UnionPulseMasks(c, t);
    ReplayOne(Replay(p, dw + [ClearMask(MotorDisable)] + pw), SetMask(MotorDisable));
  }

  /**
   * How the bits of one motor end up after a move from `c` to `t`: a moved
   * motor's direction bit says which way it went and its StepPulse bit is
   * low; an unmoved motor's bits are untouched.
   */
  predicate MotorBitsAfterMove(p: Mask, q: Mask, dirBit: Bit, stepBit: Bit, c: int, t: int)
  {
    && (c < t ==> dirBit !in q && stepBit !in q)
    && (c > t ==> dirBit in q && stepBit !in q)
    && (c == t ==> (dirBit in q <==> dirBit in p) && (stepBit in q <==> stepBit in p))
  }

  /**
   * The latch after a whole move: the motors are disabled again, the pump
   * bit is untouched, and every motor's bits are as MotorBitsAfterMove says.
   */
  lemma FinalLatch(p: Mask, c: Steps, t: Steps)
    ensures var q := MoveLatch(p, c, t);
      && 6 in q
      && (7 in q <==> 7 in p)
      && MotorBitsAfterMove(p, q, 1, 0, c.m1, t.m1)
      && MotorBitsAfterMove(p, q, 3, 2, c.m2, t.m2)
      && MotorBitsAfterMove(p, q, 5, 4, c.m3, t.m3)
  {
  }

  /** Every write of the pulse phase touches StepPulse bits only, and at least one. */
  lemma PulsePhaseMasks(c: Steps, t: Steps, i: nat)
    requires i < |PulseWrites(PulseMasks(c, t))|
    ensures PulseWrites(PulseMasks(c, t))[i].mask <= StepPulseBits
    ensures PulseWrites(PulseMasks(c, t))[i].mask != {}
  {
    PulseWritesLength(PulseMasks(c, t));
    PulseWritesAt(PulseMasks(c, t), i);
    PulseMaskAt(c, t, i / 2);
  }

  /**
   * Ordering of a move: all direction writes come first, then the single
   * enable, then only step pulses (which never touch a direction bit), and
   * the disable is the last write.
   */
  lemma MoveOrder(c: Steps, t: Steps)
    ensures var w := MoveWrites(c, t);
      var e := |DirectionWrites(c, t)|;
      && e <= 3
      && |w| == e + 2 * MaxDist(c, t) + 2
      && (forall j :: 0 <= j < e ==> w[j].mask <= DirectionBits && w[j].mask != {})
      && w[e] == ClearMask(MotorDisable)
      && (forall j :: e < j < |w| - 1 ==> w[j].mask <= StepPulseBits && w[j].mask != {})
      && w[|w| - 1] == SetMask(MotorDisable)
  {
    var dw := DirectionWrites(c, t);
    var pw := PulseWrites(PulseMasks(c, t));
    var w := MoveWrites(c, t);
    var e := |dw|;
    PulseCount(c, t);
    PulseWritesLength(PulseMasks(c, t));
    assert w == dw + ([ClearMask(MotorDisable)] + pw + [SetMask(MotorDisable)]);
    forall j | 0 <= j < e
      ensures w[j].mask <= DirectionBits && w[j].mask != {}
    {
      assert w[j] == dw[j];
    }
    forall j | e < j < |w| - 1
      ensures w[j].mask <= StepPulseBits && w[j].mask != {}
    {
      assert w[j] == pw[j - e - 1];
      PulsePhaseMasks(c, t, j - e - 1);
    }
  }

  /** A second move to the same targets enables and disables the motors but pulses none. */
  lemma RepeatMoveIsQuiet(t: Steps)
    ensures MoveWrites(t, t) == [ClearMask(MotorDisable), SetMask(MotorDisable)]
  {
  }

  /**
   * Synchronised arrival, e.g. from (0, 0, 0) to (30, 10, 20): thirty passes,
   * all three motors in the first ten, motors 1 and 3 in the next ten, motor 1
   * alone in the last ten.
   */
  lemma SynchronisedArrivalExample(k: nat)
    requires k < 30
    ensures |PulseMasks(Steps(0, 0, 0), Steps(30, 10, 20))| == 30
    ensures PulseMasks(Steps(0, 0, 0), Steps(30, 10, 20))[k]
      == if k < 10 then StepPulseBits
         else if k < 20 then Motor1StepPulse + Motor3StepPulse
         else Motor1StepPulse
  {
    PulseCount(Steps(0, 0, 0), Steps(30, 10, 20));
    PulseMaskAt(Steps(0, 0, 0), Steps(30, 10, 20), k);
  }

  /** The direction bit of every motor still travelling says which way it must count. */
  predicate DirectionsToward(q: Mask, c: Steps, t: Steps)
  {
    && (c.m1 != t.m1 ==> (1 in q <==> c.m1 > t.m1))
    && (c.m2 != t.m2 ==> (3 in q <==> c.m2 > t.m2))
    && (c.m3 != t.m3 ==> (5 in q <==> c.m3 > t.m3))
  }

  /** After the direction writes and the enable, every travelling motor points the right way. */
  lemma DirectionsSet(p: Mask, c: Steps, t: Steps)
    ensures DirectionsToward(DirectionsLatch(p, c, t) - MotorDisable, c, t)
  {
  }

  /** A step pulse leaves the direction bits alone, so they stay right for the next pass. */
  lemma PulseKeepsDirections(q: Mask, c: Steps, t: Steps)
    requires DirectionsToward(q, c, t)
    ensures DirectionsToward(q - PendingMask(c, t), Advance(c, t), t)
  {
  }

  /** One pass of the stepping loop performs the next pending pulse of the move. */
  lemma PassMasks(c0: Steps, c: Steps, t: Steps, done: seq<Mask>)
    requires c != t
    requires done + PulseMasks(c, t) == PulseMasks(c0, t)
    ensures (done + [PendingMask(c, t)]) + PulseMasks(Advance(c, t), t) == PulseMasks(c0, t)
  {
    AppendAssoc(done, [PendingMask(c, t)], PulseMasks(Advance(c, t), t));
  }

  /**
   * One pass of the stepping loop extends what has been done by the next
   * pulse: its mask, its writes and the latch bits it clears.
   */
  lemma PassStep(c0: Steps, c: Steps, t: Steps, done: seq<Mask>, w0: seq<PortWrite>, p0: Mask)
    requires c != t
    requires done + PulseMasks(c, t) == PulseMasks(c0, t)
    ensures var m := PendingMask(c, t);
      && (done + [m]) + PulseMasks(Advance(c, t), t) == PulseMasks(c0, t)
      && (w0 + PulseWrites(done)) + PulseWrites([m]) == w0 + PulseWrites(done + [m])
      && (p0 - Union(done)) - m == p0 - Union(done + [m])
  {
    var m := PendingMask(c, t);
    PassMasks(c0, c, t, done);
    PulseWritesAppend(done, [m]);
    UnionAppend(done, [m]);
    AppendAssoc(w0, PulseWrites(done), PulseWrites([m]));
  }

  // ---------------------------------------------------------------------
  // PORTA and the motors, as the firmware drives them
  // ---------------------------------------------------------------------

  class MotorPort {
    /** PORTA output latch. */
    var porta: Mask
    /** DDRA data-direction register. */
    var ddra: Mask
    /** Every masked write issued to PORTA, oldest first. */
    var writes: seq<PortWrite>
    /** The static step counters of Cap_MoveEffector. */
    var m1Current: Int16
    var m2Current: Int16
    var m3Current: Int16

    function Current(): Steps
      reads this
    {
      Steps(m1Current, m2Current, m3Current)
    }

    /** Power-up: DDRA is all inputs (0), the counters start at 0. */
    constructor (resetLatch: Mask)
      ensures porta == resetLatch && ddra == {} && writes == []
      ensures Current() == Steps(0, 0, 0)
    {
      porta := resetLatch;
      ddra := {};
      writes := [];
      m1Current, m2Current, m3Current := 0, 0, 0;
    }

    /** Cap_PortAInit: every latch bit low except MotorDisable, which keeps its value; all outputs. */
    method PortAInit()
      modifies this
      ensures porta <= MotorDisable && (6 in porta <==> 6 in old(porta))
      ensures writes == old(writes) + [ClearMask(AllButMotorDisable)]
      ensures ddra == AllBits && Current() == old(Current())
    {
      porta := porta * MotorDisable;
      writes := writes + [ClearMask(AllButMotorDisable)];
      ddra := AllBits;
    }

    /** Cap_PortARead: the latch bits selected by the mask, and no others. */
    method PortARead(mask: Mask) returns (r: Mask)
      ensures r <= mask
      ensures forall b :: b in mask ==> (b in r <==> b in porta)
    {
      r := porta * mask;
    }

    /** Cap_PortASet. */
    method PortASet(mask: Mask)
      modifies this
      ensures writes == old(writes) + [SetMask(mask)]
      ensures porta == Apply(old(porta), SetMask(mask))
      ensures ddra == old(ddra) && Current() == old(Current())
    {
      porta := porta + mask;
      writes := writes + [SetMask(mask)];
    }

    /** Cap_PortAClear. */
    method PortAClear(mask: Mask)
      modifies this
      ensures writes == old(writes) + [ClearMask(mask)]
      ensures porta == Apply(old(porta), ClearMask(mask))
      ensures ddra == old(ddra) && Current() == old(Current())
    {
      porta := porta - mask;
      writes := writes + [ClearMask(mask)];
    }

    /** Cap_PortAToggle. */
    method PortAToggle(mask: Mask)
      modifies this
      ensures writes == old(writes) + [ToggleMask(mask)]
      ensures porta == Apply(old(porta), ToggleMask(mask))
      ensures ddra == old(ddra) && Current() == old(Current())
    {
      porta := (porta - mask) + (mask - porta);
      writes := writes + [ToggleMask(mask)];
    }

    /** Cap_MotorStep: one pulse on the mask bits (the 100 us sleep between is not modelled). */
    method MotorStep(mask: Mask)
      modifies this
      ensures writes == old(writes) + PulseWrites([mask])
      ensures porta == old(porta) - mask
      ensures ddra == old(ddra) && Current() == old(Current())
    {
      PortASet(mask);
      PortAClear(mask);
      assert PulseWrites([mask]) == [SetMask(mask), ClearMask(mask)];
      assert (old(porta) + mask) - mask == old(porta) - mask;
    }

    /** Cap_SetMotorDirection. */
    method SetMotorDirection(dirMask: Mask, currentStep: Int16, targetStep: Int16)
      modifies this
      ensures writes == old(writes) + DirectionWrite(dirMask, currentStep, targetStep)
      ensures porta == DirectionLatch(old(porta), dirMask, currentStep, targetStep)
      ensures ddra == old(ddra) && Current() == old(Current())
    {
      if currentStep < targetStep {
        PortAClear(dirMask);
      } else if currentStep > targetStep {
        PortASet(dirMask);
      } else {
        assert writes + [] == writes;
      }
    }

    /**
     * The counting half of one pass of Cap_MoveEffector's stepping loop:
     * collect the StepPulse bit of every motor not at its target and move
     * its counter one step the way its direction bit says.
     */
    method CountPass(m1Target: Int16, m2Target: Int16, m3Target: Int16) returns (motorsToMove: Mask)
      requires DirectionsToward(porta, Current(), Steps(m1Target, m2Target, m3Target))
      modifies this
      ensures motorsToMove == PendingMask(old(Current()), Steps(m1Target, m2Target, m3Target))
      ensures Current() == Advance(old(Current()), Steps(m1Target, m2Target, m3Target))
      ensures porta == old(porta) && ddra == old(ddra) && writes == old(writes)
    {
      motorsToMove := {};
      if m1Current != m1Target {
        motorsToMove := motorsToMove + Motor1StepPulse;
        var dir := PortARead(Motor1Direction);
        m1Current := if dir != {} then m1Current - 1 else m1Current + 1;
      }
      if m2Current != m2Target {
        motorsToMove := motorsToMove + Motor2StepPulse;
        var dir := PortARead(Motor2Direction);
        m2Current := if dir != {} then m2Current - 1 else m2Current + 1;
      }
      if m3Current != m3Target {
        motorsToMove := motorsToMove + Motor3StepPulse;
        var dir := PortARead(Motor3Direction);
        m3Current := if dir != {} then m3Current - 1 else m3Current + 1;
      }
    }

    /**
     * The stepping loop of Cap_MoveEffector: pass after pass, pulse every
     * motor still away from its target, until a pass finds none.
     */
    method StepMotors(m1Target: Int16, m2Target: Int16, m3Target: Int16)
      requires DirectionsToward(porta, Current(), Steps(m1Target, m2Target, m3Target))
      modifies this
      ensures Current() == Steps(m1Target, m2Target, m3Target)
      ensures writes == old(writes) + PulseWrites(PulseMasks(old(Current()), Current()))
      ensures porta == old(porta) - PendingMask(old(Current()), Current())
      ensures ddra == old(ddra)
    {
      var t := Steps(m1Target, m2Target, m3Target);
      ghost var c0 := Current();
      ghost var p0 := porta;
      ghost var w0 := writes;
      ghost var done: seq<Mask> := [];
      assert w0 + PulseWrites(done) == w0;

      while true
        invariant writes == w0 + PulseWrites(done)
        invariant porta == p0 - Union(done)
        invariant done + PulseMasks(Current(), t) == PulseMasks(c0, t)
        invariant DirectionsToward(porta, Current(), t)
        invariant ddra == old(ddra)
        decreases Dist(m1Current, m1Target) + Dist(m2Current, m2Target) + Dist(m3Current, m3Target)
      {
        ghost var c := Current();
        var motorsToMove := CountPass(m1Target, m2Target, m3Target);
        if motorsToMove != {} {
          AdvanceDist(c, t);
          PulseKeepsDirections(porta, c, t);
          PassStep(c0, c, t, done, w0, p0);
          MotorStep(motorsToMove);
          done := done + [motorsToMove];
        }
        if motorsToMove == {} {
          PendingMaskZero(c, t);
          assert done + [] == done;
          break;
        }
      }
      UnionPulseMasks(c0, t);
    }

    /**
     * Cap_MoveEffector: set the direction bits, enable the motors, run the
     * stepping loop, then disable the motors.
     */
    method MoveEffector(m1Target: Int16, m2Target: Int16, m3Target: Int16)
      modifies this
      ensures Current() == Steps(m1Target, m2Target, m3Target)
      ensures writes == old(writes) + MoveWrites(old(Current()), Current())
      ensures porta == MoveLatch(old(porta), old(Current()), Current())
      ensures ddra == old(ddra)
    {
      var t := Steps(m1Target, m2Target, m3Target);
      ghost var c0 := Current();
      ghost var w0 := writes;

      SetMotorDirection(Motor1Direction, m1Current, m1Target);
      ghost var emitted := DirectionWrite(Motor1Direction, c0.m1, t.m1);
      SetMotorDirection(Motor2Direction, m2Current, m2Target);
      AppendAssoc(w0, emitted, DirectionWrite(Motor2Direction, c0.m2, t.m2));
      emitted := emitted + DirectionWrite(Motor2Direction, c0.m2, t.m2);
      SetMotorDirection(Motor3Direction, m3Current, m3Target);
      AppendAssoc(w0, emitted, DirectionWrite(Motor3Direction, c0.m3, t.m3));
      emitted := emitted + DirectionWrite(Motor3Direction, c0.m3, t.m3);
      PortAClear(MotorDisable);
      AppendAssoc(w0, emitted, [ClearMask(MotorDisable)]);
      emitted := emitted + [ClearMask(MotorDisable)];
      DirectionsSet(old(porta), c0, t);

      StepMotors(m1Target, m2Target, m3Target);
      AppendAssoc(w0, emitted, PulseWrites(PulseMasks(c0, t)));
      emitted := emitted + PulseWrites(PulseMasks(c0, t));

      PortASet(MotorDisable);
      AppendAssoc(w0, emitted, [SetMask(MotorDisable)]);
    }
  }

  // ---------------------------------------------------------------------
  // Inverse kinematics wrapper
  // ---------------------------------------------------------------------

  /** What Cap_CalcInvKin returns, as an `unsigned char`, and the angles it stored. */
  datatype InvKinResult = InvKinResult(status: Byte, thetas: seq<real>)

  /** The number of arms solved before the first one without a solution. */
  function LeadingSolved(arms: seq<Option<real>>): (n: nat)
    ensures n <= |arms|
    ensures forall i :: 0 <= i < n ==> arms[i].Some?
    ensures n < |arms| ==> arms[n].None?
  {
    if arms == [] || arms[0].None? then 0 else 1 + LeadingSolved(arms[1..])
  }

  /** An `unsigned char` read back as a `signed char`. */
  function AsSigned8(b: Byte): int
  {
    if b < 0x80 then b else b - 0x100
  }

  /**
   * Cap_CalcInvKin, given the outcome of Cap_CalcAngleXYZ in each of the
   * three rotated frames (None: no solution).  It stops at the first arm
   * without a solution, returning -1, -2 or -3 through an unsigned char;
   * the angles of the arms solved before that are already stored.
   */
  function CalcInvKin(arm1: Option<real>, arm2: Option<real>, arm3: Option<real>): (r: InvKinResult)
    ensures r.status == 0 <==> arm1.Some? && arm2.Some? && arm3.Some?
    ensures r.status != 0 ==> AsSigned8(r.status) == -(LeadingSolved([arm1, arm2, arm3]) + 1)
    ensures |r.thetas| == LeadingSolved([arm1, arm2, arm3])
    ensures forall i :: 0 <= i < |r.thetas| ==> [arm1, arm2, arm3][i] == Some(r.thetas[i])
  {
    var arms := [arm1, arm2, arm3];
    assert arms[0] == arm1 && arms[1] == arm2 && arms[2] == arm3;
    if arm1.None? then InvKinResult(0xFF, [])
    else if arm2.None? then InvKinResult(0xFE, [arm1.value])
    else if arm3.None? then InvKinResult(0xFD, [arm1.value, arm2.value])
    else InvKinResult(0, [arm1.value, arm2.value, arm3.value])
  }

  /** Truncation toward zero of a real, as a C float-to-int conversion. */
  function Truncate(x: real): int
  {
    if x >= 0.0 then x.Floor else -((-x).Floor)
  }

  /**
   * Cap_AngleToStep: degrees to motor steps, truncated toward zero.  The
   * conversion is only defined by C when the result fits in an `int`.
   */
  function AngleToStep(theta: real): (r: Int16)
    requires -32768.0 < theta * StepsPerRev as real / 360.0 < 32768.0
    ensures var exact := theta * StepsPerRev as real / 360.0;
      && (exact >= 0.0 ==> 0.0 <= r as real <= exact < r as real + 1.0)
      && (exact < 0.0 ==> r as real - 1.0 < exact <= r as real <= 0.0)
  {
    Truncate(theta * StepsPerRev as real / 360.0)
  }
}
