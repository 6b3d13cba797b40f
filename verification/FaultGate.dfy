// The fault gates shared by both peripherals: a u32 draw, reduced modulo one
// million, is compared with a parts-per-million rate.
module FaultGate {

  const U32: nat := 0x1_0000_0000
  const PPM: nat := 1000000

  // One draw of the shared stream, as the C code sees it.
  type Draw = n: nat | n < U32

  // A zero rate short-circuits: the gate does not fire and no draw is consumed.
  predicate Fires(ppm: nat, draw: Draw) {
    ppm != 0 && draw % PPM < ppm
  }

  // Any number up to ten seconds of jitter is a pair of draws.
  lemma SplitDraws(x: nat) returns (hi: Draw, lo: Draw)
    requires x <= 10000000000
    ensures hi * U32 + lo == x
  {
    hi := if x < U32 then 0 else if x < 2 * U32 then 1 else 2;
    lo := x - hi * U32;
  }

  lemma SmallRest(x: nat, m: nat)
    requires x < m
    ensures x % m == x
  {}

  function Min(a: nat, b: nat): nat {
    if a < b then a else b
  }

  // How many of the draws 0 .. n-1 leave a remainder below p modulo m.
  function CountBelow(n: nat, m: nat, p: nat): nat
    requires m > 0
  {
    if n == 0 then 0
    else CountBelow(n - 1, m, p) + if (n - 1) % m < p then 1 else 0
  }

  lemma MulMonotone(a: nat, b: nat, m: nat)
    requires a <= b
    ensures a * m <= b * m
  {}

  lemma RemainderOfSum(q: nat, m: nat, r: nat)
    requires r < m
    ensures (q * m + r) % m == r
  {
    var x := q * m + r;
    var d := x / m;
    assert x == d * m + x % m;
    if d < q {
      MulMonotone(d + 1, q, m);
    } else if q < d {
      MulMonotone(q + 1, d, m);
    }
  }

  lemma CountOneMore(q: nat, m: nat, r: nat, p: nat)
    requires r < m
    ensures CountBelow(q * m + r + 1, m, p) == CountBelow(q * m + r, m, p) + if r < p then 1 else 0
  {
    RemainderOfSum(q, m, r);
  }

  // A rest r after q full periods contributes min(p, r).
  lemma {:induction false} CountRest(q: nat, r: nat, m: nat, p: nat)
    requires r <= m && p <= m && m > 0
    ensures CountBelow(q * m + r, m, p) == CountBelow(q * m, m, p) + Min(p, r)
  {
    if r > 0 {
      CountRest(q, r - 1, m, p);
      CountOneMore(q, m, r - 1, p);
    }
  }

  lemma {:induction false} CountFull(q: nat, m: nat, p: nat)
    requires m > 0 && p <= m
    ensures CountBelow(q * m, m, p) == q * p
  {
    if q > 0 {
      CountFull(q - 1, m, p);
      CountRest(q - 1, m, m, p);
      PeriodEnds(q, m);
      PeriodEnds(q, p);
    }
  }

  // q full periods and a rest r contribute q * min(p, m) + min(p, r).
  lemma CountPeriods(q: nat, r: nat, m: nat, p: nat)
    requires m > 0 && r < m && p <= m
    ensures CountBelow(q * m + r, m, p) == q * p + Min(p, r)
  {
    CountFull(q, m, p);
    CountRest(q, r, m, p);
  }

  lemma PeriodEnds(q: nat, m: nat)
    requires q > 0
    ensures q * m == (q - 1) * m + m
  {}

  // Of all 2^32 draws, exactly 4294 * ppm + min(ppm, 967296) let the gate fire.
  lemma FiringDraws(ppm: nat)
    requires ppm <= PPM
    ensures CountBelow(U32, PPM, ppm) == 4294 * ppm + Min(ppm, 967296)
    ensures ppm == 0 ==> CountBelow(U32, PPM, ppm) == 0
    ensures ppm == PPM ==> CountBelow(U32, PPM, ppm) == U32
  {
    CountPeriods(4294, 967296, PPM, ppm);
  }

  // CountBelow counts the draws on which Fires holds, and nothing else.
  function FiringSet(ppm: nat, n: nat): set<nat>
    requires n <= U32
  {
    set d: nat | d < n && Fires(ppm, d)
  }

  lemma {:induction false} CountIsCardinality(ppm: nat, n: nat)
    requires ppm <= PPM && n <= U32
    ensures |FiringSet(ppm, n)| == CountBelow(n, PPM, ppm)
  {
    if n == 0 {
      assert FiringSet(ppm, 0) == {};
    } else {
      CountIsCardinality(ppm, n - 1);
      if Fires(ppm, n - 1) {
        assert FiringSet(ppm, n) == FiringSet(ppm, n - 1) + {n - 1};
      } else {
        assert FiringSet(ppm, n) == FiringSet(ppm, n - 1);
      }
    }
  }

  // The gate probability, stated on the gate itself.
  lemma GateProbability(ppm: nat)
    requires ppm <= PPM
    ensures |FiringSet(ppm, U32)| == 4294 * ppm + Min(ppm, 967296)
    ensures ppm == 0 ==> FiringSet(ppm, U32) == {}
    ensures ppm == PPM ==> forall d: Draw :: Fires(ppm, d)
  {
    CountIsCardinality(ppm, U32);
    FiringDraws(ppm);
  }
}
