/**
 * The periodic interrupt timer library (SCI/lib/pit.c): the search for an
 * 8-bit micro-timer factor and a 16-bit timer factor whose product is the
 * requested number of bus cycles, and the loading of those factors.
 */
module Pit {
  import opened Bits

  /** A factor pair: PITMTLDx + 1 (8 bit) and PITLDx + 1 (16 bit). */
  datatype Factors = Factors(f8: nat, f16: nat)

  /** The longest interval: the pair FindFactors starts from and falls back to. */
  const LongestFit: Factors := Factors(255, 65535)

  /** Counts above this cannot be reached by any pair (256 * 65536). */
  const MaxCycles: nat := 0x100_0000

  /**
   * The bus cycles of an interval: the bus rate is divided down to MHz
   * first, and the product is an `unsigned long`.
   */
  function NumCycles(intervalUs: nat, busRate: nat): (n: nat)
    ensures n < 0x1_0000_0000
  {
    Low32(intervalUs * (busRate / 1_000_000))
  }

  /** How far a pair's product is from `n`. */
  function Diff(n: nat, p: Factors): nat
  {
    if n >= p.f8 * p.f16 then n - p.f8 * p.f16 else p.f8 * p.f16 - n
  }

  /** The pair the search examines for the 8-bit factor `f`, when `n / f` fits 16 bits. */
  predicate Candidate(n: nat, f: nat)
  {
    1 <= f <= 255 && n / f < 0x1_0000
  }

  /** The pair the search examines for the 8-bit factor `f`. */
  function Pair(n: nat, f: nat): Factors
    requires 1 <= f
  {
    Factors(f, n / f)
  }

  /**
   * Reference for the search: examine f, f + 1, ..., 255 in order and keep
   * a pair only when it is strictly closer than the best so far.
   */
  function Scan(n: nat, f: nat, best: Factors): Factors
    requires 1 <= f
    decreases 256 - f
  {
    if f > 255 then best
    else if n / f < 0x1_0000 && Diff(n, Pair(n, f)) < Diff(n, best) then Scan(n, f + 1, Pair(n, f))
    else Scan(n, f + 1, best)
  }

  /** What FindFactors returns for `n` cycles. */
  function BestFit(n: nat): Factors
  {
    if n > MaxCycles then LongestFit else Scan(n, 1, LongestFit)
  }

  /**
   * The scan from `f` returns the first closest pair in the order `best`,
   * then the candidates from `f` on.
   */
  lemma {:induction false} ScanIsFirstClosest(n: nat, f: nat, best: Factors)
    requires 1 <= f
    ensures var r := Scan(n, f, best);
      && (r == best || (Candidate(n, r.f8) && f <= r.f8 && r.f16 == n / r.f8))
      && Diff(n, r) <= Diff(n, best)
      && (forall g :: f <= g && Candidate(n, g) ==> Diff(n, r) <= Diff(n, Pair(n, g)))
      && (r != best ==> Diff(n, r) < Diff(n, best))
      && (r != best ==> forall g :: f <= g < r.f8 && Candidate(n, g) ==> Diff(n, r) < Diff(n, Pair(n, g)))
    decreases 256 - f
  {
    if f <= 255 {
      var next := if n / f < 0x1_0000 && Diff(n, Pair(n, f)) < Diff(n, best) then Pair(n, f) else best;
      ScanIsFirstClosest(n, f + 1, next);
    }
  }

  /** A scan that already holds an exact pair keeps it. */
  lemma {:induction false} ScanKeepsExact(n: nat, f: nat, best: Factors)
    requires 1 <= f && Diff(n, best) == 0
    ensures Scan(n, f, best) == best
    decreases 256 - f
  {
    if f <= 255 {
      ScanKeepsExact(n, f + 1, best);
    }
  }

  /**
   * FindFactors' result: counts above 256 * 65536 give (255, 65535);
   * otherwise the closest pair, the first one examined on ties, with the
   * 8-bit factor in 1..255 and the 16-bit factor below 65536.
   */
  lemma BestFitIsFirstClosest(n: nat)
    ensures n > MaxCycles ==> BestFit(n) == LongestFit
    ensures var r := BestFit(n);
      && 1 <= r.f8 <= 255 && r.f16 < 0x1_0000
      && (n <= MaxCycles ==>
        && Diff(n, r) <= Diff(n, LongestFit)
        && (forall g :: Candidate(n, g) ==> Diff(n, r) <= Diff(n, Pair(n, g)))
        && (r != LongestFit ==> Diff(n, r) < Diff(n, LongestFit) && Candidate(n, r.f8) && r.f16 == n / r.f8)
        && (r != LongestFit ==> forall g :: 1 <= g < r.f8 && Candidate(n, g) ==> Diff(n, r) < Diff(n, Pair(n, g))))
  {
    if n <= MaxCycles {
      ScanIsFirstClosest(n, 1, LongestFit);
    }
  }

  /**
   * When some 8-bit factor divides `n` with a 16-bit quotient, the result
   * is exact and its 8-bit factor is the smallest such one.
   */
  lemma ExactIsSmallestFactor(n: nat, f: nat)
    requires n <= MaxCycles && Candidate(n, f) && f * (n / f) == n
    ensures var r := BestFit(n);
      && r.f8 * r.f16 == n
      && r.f8 <= f
      && forall g :: 1 <= g < r.f8 && Candidate(n, g) ==> g * (n / g) != n
  {
    BestFitIsFirstClosest(n);
    var r := BestFit(n);
    assert Diff(n, Pair(n, f)) == 0;
    assert Diff(n, r) == 0;
    if r == LongestFit {
      forall g | 1 <= g < 255 && Candidate(n, g)
        ensures g * (n / g) != n
      {
        ExactPairBelowLongest(n, g);
      }
      if f < 255 {
        ExactPairBelowLongest(n, f);
      }
    }
  }

  /** An exact pair with an 8-bit factor below 255 has a product below 255 * 65535. */
  lemma ExactPairBelowLongest(n: nat, g: nat)
    requires Candidate(n, g) && g < 255
    ensures g * (n / g) < 255 * 65535
  {
    var q := n / g;
    assert q <= 65535;
    assert g * q <= 254 * q by {
      MulLeft(q, g, 254);
    }
    assert 254 * q <= 254 * 65535;
  }

  /** Multiplication by a natural number is monotonic. */
  lemma MulLeft(q: nat, a: nat, b: nat)
    requires a <= b
    ensures a * q <= b * q
  {
  }

  /** 200000 cycles (10 ms at 20 MHz): (4, 50000). */
  lemma TenMillisecondsAt20MHz()
    ensures NumCycles(10_000, 20_000_000) == 200_000
    ensures BestFit(200_000) == Factors(4, 50_000)
  {
    var n := 200_000;
    ExactIsSmallestFactor(n, 4);
    var r := BestFit(n);
    BestFitIsFirstClosest(n);
    assert r.f8 * r.f16 == n && r.f8 <= 4;
    assert n / 1 >= 0x1_0000 && n / 2 >= 0x1_0000 && n / 3 >= 0x1_0000;
  }

  /** 2000 cycles: (1, 2000). */
  lemma TwoThousandCycles()
    ensures BestFit(2000) == Factors(1, 2000)
  {
    ExactIsSmallestFactor(2000, 1);
  }

  /** `a * b` for two `unsigned int`s: the product modulo 2^16. */
  function Product16(a: nat, b: nat): (r: nat)
    ensures r < 0x1_0000
    ensures a * b < 0x1_0000 ==> r == a * b
  {
    Low16(a * b)
  }

  /**
   * A 16-bit product equals a count only when the count is below 65536 and
   * the product is exact: the early return of FindFactors.
   */
  lemma SixteenBitProduct(n: nat, f: nat)
    requires 1 <= f && n / f < 0x1_0000
    ensures Product16(f, n / f) == n <==> n < 0x1_0000 && f * (n / f) == n
  {
    assert f * (n / f) <= n;
  }

  /**
   * `|n - a * b|`, computed as the C code does: an `unsigned long`
   * difference read as a `long` and negated when negative.  Both values are
   * below 2^25, so the 32-bit wrap-around cancels out.
   */
  function AbsDiff(n: nat, a: nat, b: nat): (d: int)
    ensures d == Diff(n, Factors(a, b))
  {
    var d := n - a * b;
    if d < 0 then -d else d
  }

  /**
   * FindFactors: the search as written, with the exact test on the 16-bit
   * product `factor8Bit * factor16Bit`.
   */
  method FindFactors(intervalUs: nat, busRate: nat) returns (f8: nat, f16: nat)
    ensures Factors(f8, f16) == BestFit(NumCycles(intervalUs, busRate))
  {
    var numCycles := Low32(intervalUs * (busRate / 1_000_000));
    if numCycles > MaxCycles {
      return 255, 65535;
    }
    var best8: nat, best16: nat := 255, 65535;
    var factor8 := 1;
    while factor8 < 256
      invariant 1 <= factor8 <= 256
      invariant Scan(numCycles, factor8, Factors(best8, best16)) == BestFit(numCycles)
      invariant numCycles < 0x1_0000 ==> factor8 == 1 && Factors(best8, best16) == LongestFit
      decreases 256 - factor8
    {
      var tempFactor16 := numCycles / factor8;
      if tempFactor16 < 0x1_0000 {
        var factor16 := tempFactor16;
        SixteenBitProduct(numCycles, factor8);
        if Product16(factor8, factor16) == numCycles {
          ScanKeepsExact(numCycles, factor8 + 1, Factors(factor8, factor16));
          return factor8, factor16;
        } else {
          var absDiffBestFit := AbsDiff(numCycles, best8, best16);
          var absDiffFactors := AbsDiff(numCycles, factor8, factor16);
          if absDiffFactors < absDiffBestFit {
            best8, best16 := factor8, factor16;
          }
        }
      }
      factor8 := factor8 + 1;
    }
    return best8, best16;
  }

  datatype Channel = Channel0 | Channel1

  /** PITCFLMT after PIT_Init: PITE (bit 7) and PITFRZ (bit 5). */
  const EnableAndFreeze: Mask := {7, 5}

  /** The PIT registers PIT_Init writes. */
  class PeriodicTimer {
    /** PITMTLD0/1: micro-timer load registers (8 bit). */
    var pitmtld0: Byte
    var pitmtld1: Byte
    /** PITLD0/1: timer load registers (16 bit). */
    var pitld0: UInt16
    var pitld1: UInt16
    /** PITTF: time-out flags, cleared by writing 1. */
    var pittf: Mask
    /** PITINTE, PITCE, PITMUX and PITCFLMT. */
    var pitinte: Mask
    var pitce: Mask
    var pitmux: Mask
    var pitcflmt: Mask

    constructor ()
      ensures pitmtld0 == 0 && pitmtld1 == 0 && pitld0 == 0 && pitld1 == 0
      ensures pittf == {} && pitinte == {} && pitce == {} && pitmux == {} && pitcflmt == {}
    {
      pitmtld0, pitmtld1, pitld0, pitld1 := 0, 0, 0, 0;
      pittf, pitinte, pitce, pitmux, pitcflmt := {}, {}, {}, {}, {};
    }

    /**
     * PIT_Init: load each factor of FindFactors minus one (as an unsigned
     * value of the register's width) into the channel's load registers,
     * clear its flag, set its interrupt enable as asked, enable it, then
     * enable the PIT.  Channel 1 is first switched to micro time base 1.
     */
    method Init(chan: Channel, interruptOn: bool, busRate: nat, intervalUs: nat)
      modifies this
      ensures var r := BestFit(NumCycles(intervalUs, busRate));
        var b := if chan == Channel0 then 0 else 1;
        && (chan == Channel0 ==> pitmtld0 == (r.f8 - 1) % 0x100 && pitld0 == (r.f16 - 1) % 0x1_0000)
        && (chan == Channel0 ==> pitmtld1 == old(pitmtld1) && pitld1 == old(pitld1) && pitmux == old(pitmux))
        && (chan == Channel1 ==> pitmtld1 == (r.f8 - 1) % 0x100 && pitld1 == (r.f16 - 1) % 0x1_0000)
        && (chan == Channel1 ==> pitmtld0 == old(pitmtld0) && pitld0 == old(pitld0) && pitmux == old(pitmux) + {1})
        && pittf == old(pittf) - {b}
        && pitinte - {b} == old(pitinte) - {b} && (b in pitinte <==> interruptOn)
        && pitce == old(pitce) + {b}
        && pitcflmt == EnableAndFreeze
    {
      var f8, f16 := FindFactors(intervalUs, busRate);
      match chan {
        case Channel0 =>
          pitmtld0 := (f8 as int - 1) % 0x100;
          pitld0 := (f16 as int - 1) % 0x1_0000;
          pittf := pittf - {0};
          pitinte := if interruptOn then pitinte + {0} else pitinte - {0};
          pitce := pitce + {0};
        case Channel1 =>
          pitmux := pitmux + {1};
          pitmtld1 := (f8 as int - 1) % 0x100;
          pitld1 := (f16 as int - 1) % 0x1_0000;
          pittf := pittf - {1};
          pitinte := if interruptOn then pitinte + {1} else pitinte - {1};
          pitce := pitce + {1};
      }
      pitcflmt := EnableAndFreeze;
    }
  }

  /** A zero-length interval loads the 16-bit register with 65535 (0 - 1 as an `unsigned int`). */
  lemma ZeroIntervalWraps()
    ensures BestFit(NumCycles(0, 20_000_000)) == Factors(1, 0)
    ensures (BestFit(0).f16 - 1) % 0x1_0000 == 0xFFFF
  {
    assert NumCycles(0, 20_000_000) == 0;
    ExactIsSmallestFactor(0, 1);
    BestFitIsFirstClosest(0);
    assert BestFit(0).f8 == 1;
  }
}
