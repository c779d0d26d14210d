/** The CUC telemetry stamp: 4 octets of seconds and 2 octets of binary fraction
    (section 3.2 of CCSDS 301.0-B-4), computed from 64-bit nanoseconds. */
module CucTime {

  const NS_PER_SECOND: nat := 1_000_000_000
  const FINE_SCALE: nat := 65536
  const TWO_64: nat := 0x1_0000_0000_0000_0000

  datatype CucTime = CucTime(coarse: nat, fine: nat)

  function Stamp(ns: nat): CucTime {
    CucTime(ns / NS_PER_SECOND, ns % NS_PER_SECOND * FINE_SCALE / NS_PER_SECOND)
  }

  // The stamp as a count of ticks of 1/65536 s.
  function Ticks(t: CucTime): nat {
    t.coarse * FINE_SCALE + t.fine
  }

  // The two-part computation is the exact scaled quotient, and no intermediate leaves 64 bits.
  lemma StampIsExact(ns: nat)
    requires ns < TWO_64
    ensures Ticks(Stamp(ns)) == ns * FINE_SCALE / NS_PER_SECOND
    ensures Stamp(ns).fine < FINE_SCALE
    ensures ns % NS_PER_SECOND * FINE_SCALE < TWO_64
  {
    var c, r := ns / NS_PER_SECOND, ns % NS_PER_SECOND;
    assert ns == c * NS_PER_SECOND + r;
    assert ns * FINE_SCALE == c * FINE_SCALE * NS_PER_SECOND + r * FINE_SCALE;
  }

  // At most one tick behind true time, and never ahead of it.
  lemma StampError(ns: nat)
    requires ns < TWO_64
    ensures 0 <= ns * FINE_SCALE - Ticks(Stamp(ns)) * NS_PER_SECOND < NS_PER_SECOND
  {
    StampIsExact(ns);
  }

  // Later instants never have earlier stamps, and instants 15259 ns apart have different ones.
  lemma StampOrder(a: nat, b: nat)
    requires a <= b < TWO_64
    ensures Ticks(Stamp(a)) <= Ticks(Stamp(b))
    ensures b - a >= 15259 ==> Ticks(Stamp(a)) < Ticks(Stamp(b))
  {
    StampError(a);
    StampError(b);
  }

  // 15259 is the least such distance.
  lemma StampsMayCoincide()
    ensures Stamp(15258) == Stamp(0)
  {
  }

  // The stamp fits its 4 + 2 octets exactly before the seconds overflow.
  lemma StampFits(ns: nat)
    requires ns < TWO_64
    ensures Stamp(ns).coarse < 0x1_0000_0000 && Stamp(ns).fine < 0x1_0000 <==> ns < 0x1_0000_0000 * NS_PER_SECOND
  {
    StampIsExact(ns);
  }
}
