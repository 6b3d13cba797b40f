// The 64-bit statistics counters of both peripherals, which wrap around.
module Counters {

  const U64: nat := 0x1_0000_0000_0000_0000

  // n modulo 2^64, by repeated subtraction.
  function Wrap64(n: nat): nat {
    if n < U64 then n else Wrap64(n - U64)
  }

  lemma {:induction false} WrapIsSmall(n: nat)
    ensures Wrap64(n) < U64
  {
    if n >= U64 {
      WrapIsSmall(n - U64);
    }
  }

  lemma {:induction false} WrapIsModulo(n: nat)
    ensures Wrap64(n) == n % U64
  {
    if n >= U64 {
      WrapIsModulo(n - U64);
    }
  }

  lemma {:induction false} WrapTwice(a: nat, b: nat)
    ensures Wrap64(Wrap64(a) + b) == Wrap64(a + b)
  {
    if a >= U64 {
      WrapTwice(a - U64, b);
    }
  }

  function Add64(stat: nat, n: nat): nat {
    Wrap64(stat + n)
  }

  // n more, as a u64 counter shows it.
  lemma AddIsModulo(stat: nat, n: nat)
    ensures Add64(stat, n) == (stat + n) % 0x1_0000_0000_0000_0000
  {
    WrapIsModulo(stat + n);
  }

  lemma AddTwice(a: nat, b: nat, n: nat)
    ensures Add64(Add64(a, b), n) == Add64(a, b + n)
  {
    WrapTwice(a + b, n);
  }
}
