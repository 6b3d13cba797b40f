// The draw on u32 numbers: the words of Prng are the numbers of the driver, and its
// step is the three shifted exclusive ors.
module PrngNumbers {
  import opened Prng

  // Bit i of n.
  predicate BitAt(n: nat, i: nat) {
    if i == 0 then n % 2 == 1 else BitAt(n / 2, i - 1)
  }

  // z is the exclusive or of x and y, as u32 numbers.
  ghost predicate IsXor(z: nat, x: nat, y: nat) {
    z < 0x1_0000_0000 && forall i: nat | i < 32 :: BitAt(z, i) == (BitAt(x, i) != BitAt(y, i))
  }

  // --- bits under shifts ---

  lemma Halves(n: nat)
    ensures 2 * n / 2 == n && (2 * n + 1) / 2 == n && 2 * n % 2 == 0 && (2 * n + 1) % 2 == 1
  {}

  lemma {:induction false} BitOfProduct(n: nat, k: nat, i: nat)
    ensures BitAt(n * Pow2(k), i) <==> i >= k && BitAt(n, i - k)
  {
    if k > 0 {
      assert n * Pow2(k) == 2 * (n * Pow2(k - 1)) by {
        TwiceProduct(n, Pow2(k - 1));
      }
      Halves(n * Pow2(k - 1));
      if i > 0 {
        BitOfProduct(n, k - 1, i - 1);
      }
    }
  }

  lemma QuotientTwice(n: nat, m: nat)
    requires m > 0
    ensures n / (2 * m) == n / 2 / m
  {
    var h, r := n / 2, n % 2;
    var q, s := h / m, h % m;
    assert n == 2 * h + r && h == q * m + s;
    assert n == q * (2 * m) + (2 * s + r) by {
      TwiceProduct(q, m);
    }
    OneQuotient(n, 2 * m, q, 2 * s + r);
  }

  lemma OneQuotient(n: nat, m: nat, q: nat, r: nat)
    requires n == q * m + r && r < m
    ensures n / m == q && n % m == r
  {
    var d := n / m;
    assert n == d * m + n % m;
    if d < q {
      Grows(d + 1, q, m);
    } else if q < d {
      Grows(q + 1, d, m);
    }
  }

  lemma Grows(a: nat, b: nat, m: nat)
    requires a <= b
    ensures a * m <= b * m
  {}

  lemma {:induction false} BitOfQuotient(n: nat, k: nat, p: nat, i: nat)
    requires p > 0 && p == Pow2(k)
    ensures BitAt(Over(n, p), i) <==> BitAt(n, i + k)
  {
    if k > 0 {
      QuotientTwice(n, Pow2(k - 1));
      BitOfQuotient(n / 2, k - 1, Pow2(k - 1), i);
    }
  }

  function Over(n: nat, p: nat): nat
    requires p > 0
  {
    n / p
  }

  lemma RestTwice(n: nat, m: nat)
    requires m > 0
    ensures n % (2 * m) / 2 == n / 2 % m && n % (2 * m) % 2 == n % 2
  {
    var h, r := n / 2, n % 2;
    var q, s := h / m, h % m;
    assert n == 2 * h + r && h == q * m + s;
    assert n == q * (2 * m) + (2 * s + r) by {
      TwiceProduct(q, m);
    }
    OneQuotient(n, 2 * m, q, 2 * s + r);
  }

  lemma {:induction false} BitOfRest(n: nat, m: nat, i: nat)
    requires i < m
    ensures BitAt(n % Pow2(m), i) <==> BitAt(n, i)
  {
    RestTwice(n, Pow2(m - 1));
    if i > 0 {
      BitOfRest(n / 2, m - 1, i - 1);
    }
  }

  // --- the bits of a word ---

  lemma HalfOfSum(x: nat, p: nat)
    ensures (x + 2 * p) / 2 == x / 2 + p && (x + 2 * p) % 2 == x % 2
  {}

  lemma {:induction false} BitOfSum(x: nat, m: nat, i: nat)
    requires x < Pow2(m) && i <= m
    ensures BitAt(x + Pow2(m), i) <==> i == m || BitAt(x, i)
  {
    if m > 0 {
      HalfOfSum(x, Pow2(m - 1));
      if i > 0 {
        BitOfSum(x / 2, m - 1, i - 1);
      }
    }
  }

  lemma {:induction false} NoHighBit(x: nat, m: nat)
    requires x < Pow2(m)
    ensures !BitAt(x, m)
  {
    if m > 0 {
      NoHighBit(x / 2, m - 1);
    }
  }

  lemma {:induction false} BitOfValue(w: set<nat>, n: nat, i: nat)
    requires i < n
    ensures BitAt(Value(w, n), i) <==> i in w
  {
    ValueBound(w, n - 1);
    if n - 1 in w {
      BitOfSum(Value(w, n - 1), n - 1, i);
    }
    if i < n - 1 {
      BitOfValue(w, n - 1, i);
    } else {
      NoHighBit(Value(w, n - 1), n - 1);
    }
  }

  // --- the three stages ---

  lemma ShlOnBit(x: Word, k: nat, n: nat, i: nat)
    requires i < n == WIDTH
    ensures BitAt(Value(XorShl(x, k), n), i) == (BitAt(Value(x, n), i) != BitAt(Value(x, n) * Pow2(k) % Pow2(n), i))
  {
    BitOfValue(XorShl(x, k), n, i);
    BitOfValue(x, n, i);
    ShiftedBit(x, k, n, i);
  }

  lemma ShiftedBit(x: Word, k: nat, n: nat, i: nat)
    requires i < n == WIDTH
    ensures BitAt(Value(x, n) * Pow2(k) % Pow2(n), i) <==> i >= k && i - k in x
  {
    BitOfRest(Value(x, n) * Pow2(k), n, i);
    BitOfProduct(Value(x, n), k, i);
    if i >= k {
      BitOfValue(x, n, i - k);
    }
  }

  lemma ShrOnBit(x: Word, k: nat, p: nat, n: nat, i: nat)
    requires i < n == WIDTH && p > 0 && p == Pow2(k)
    ensures BitAt(Value(XorShr(x, k), n), i) == (BitAt(Value(x, n), i) != BitAt(Over(Value(x, n), p), i))
  {
    var v := Value(x, n);
    BitOfValue(XorShr(x, k), n, i);
    BitOfValue(x, n, i);
    BitOfQuotient(v, k, p, i);
    HighBits(x, n, i + k);
  }

  lemma ShlOnNumbers(x: Word, k: nat, n: nat, p: nat)
    requires n == WIDTH && p == Pow2(k)
    ensures IsXor(Value(XorShl(x, k), n), Value(x, n), Value(x, n) * p % 0x1_0000_0000)
  {
    U32IsPower(n);
    ValueBound(XorShl(x, k), n);
    forall i: nat | i < n
      ensures BitAt(Value(XorShl(x, k), n), i) == (BitAt(Value(x, n), i) != BitAt(Value(x, n) * p % 0x1_0000_0000, i))
    {
      ShlOnBit(x, k, n, i);
    }
  }

  lemma ShrOnNumbers(x: Word, k: nat, n: nat, p: nat)
    requires n == WIDTH && p > 0 && p == Pow2(k)
    ensures IsXor(Value(XorShr(x, k), n), Value(x, n), Over(Value(x, n), p))
  {
    U32IsPower(n);
    ValueBound(XorShr(x, k), n);
    forall i: nat | i < n
      ensures BitAt(Value(XorShr(x, k), n), i) == (BitAt(Value(x, n), i) != BitAt(Over(Value(x, n), p), i))
    {
      ShrOnBit(x, k, p, n, i);
    }
  }

  lemma U32IsPower(n: nat)
    requires n == WIDTH
    ensures n == 32 && Pow2(n) == 0x1_0000_0000
  {
    WordsAreDraws({});
  }

  lemma HighBits(x: Word, n: nat, i: nat)
    requires n == WIDTH
    ensures BitAt(Value(x, n), i) <==> i in x
  {
    if i < n {
      BitOfValue(x, n, i);
    } else {
      ValueBound(x, n);
      BitBeyond(Value(x, n), n, i);
    }
  }

  lemma {:induction false} BitBeyond(n: nat, m: nat, i: nat)
    requires n < Pow2(m) && i >= m
    ensures !BitAt(n, i)
  {
    if m == 0 {
      ZeroBits(i);
    } else {
      BitBeyond(n / 2, m - 1, i - 1);
    }
  }

  lemma {:induction false} ZeroBits(i: nat)
    ensures !BitAt(0, i)
  {
    if i > 0 {
      ZeroBits(i - 1);
    }
  }

  lemma Powers()
    ensures Pow2(5) == 32 && Pow2(13) == 8192 && Pow2(17) == 131072
  {
    assert Pow2(4) == 16;
    Pow2Adds(4, 4);
    Pow2Adds(8, 4);
    Pow2Adds(8, 8);
  }

  // The number of a word, as the driver holds it.
  function Number(x: Word): nat {
    Value(x, WIDTH)
  }

  // One draw from the number v: zero is replaced by one, then three times the number is
  // combined with itself shifted, left by 13, right by 17 and left by 5.
  ghost predicate IsDraw(v: nat, v': nat) {
    Shifted(if v == 0 then 1 else v, v')
  }

  ghost predicate Shifted(v: nat, v': nat) {
    exists a: nat, b: nat :: ThreeStages(v, a, b, v')
  }

  ghost predicate ThreeStages(v: nat, a: nat, b: nat, v': nat) {
    IsXor(a, v, v * 8192 % 0x1_0000_0000) && IsXor(b, a, a / 131072) && IsXor(v', b, b * 32 % 0x1_0000_0000)
  }

  lemma DrawOnNumbers(x: Word)
    ensures IsDraw(Number(x), Number(Next(x)))
  {
    Powers();
    ZeroIsOne(x, WIDTH);
    var w: Word := if x == {} then DEFAULT_SEED else x;
    ShlOnNumbers(w, 13, WIDTH, 8192);
    ShrOnNumbers(XorShl(w, 13), 17, WIDTH, 131072);
    ShlOnNumbers(XorShr(XorShl(w, 13), 17), 5, WIDTH, 32);
    assert ThreeStages(Number(w), Number(XorShl(w, 13)), Number(XorShr(XorShl(w, 13), 17)), Number(Next(x)));
  }

  // Only the empty word is zero, and the default seed is one.
  lemma ZeroIsOne(x: Word, n: nat)
    requires n == WIDTH
    ensures Value(x, n) == 0 <==> x == {}
    ensures Value(DEFAULT_SEED, n) == 1
  {
    ZeroHasNoBits(n);
    if Value(x, n) == 0 {
      ValueInjective(x, {}, n);
    }
    LowBitOnly(n);
  }

  lemma {:induction false} LowBitOnly(n: nat)
    requires n > 0
    ensures Value({0}, n) == 1
  {
    if n > 1 {
      LowBitOnly(n - 1);
    }
  }

  // Two numbers with the same low bits below 2^m are the same: an exclusive or is
  // determined by what it combines.
  lemma {:induction false} SameBits(x: nat, y: nat, m: nat)
    requires x < Pow2(m) && y < Pow2(m) && forall i: nat | i < m :: BitAt(x, i) == BitAt(y, i)
    ensures x == y
  {
    if m > 0 {
      assert BitAt(x, 0) == BitAt(y, 0);
      forall i: nat | i < m - 1 ensures BitAt(x / 2, i) == BitAt(y / 2, i) {
        assert BitAt(x, i + 1) == BitAt(y, i + 1);
      }
      SameBits(x / 2, y / 2, m - 1);
    }
  }

  lemma XorIsUnique(z: nat, z': nat, x: nat, y: nat)
    requires IsXor(z, x, y) && IsXor(z', x, y)
    ensures z == z'
  {
    U32IsPower(WIDTH);
    SameBits(z, z', WIDTH);
  }

  // So a draw is determined by the number it starts from.
  lemma DrawIsUnique(v: nat, x: nat, y: nat)
    requires IsDraw(v, x) && IsDraw(v, y)
    ensures x == y
  {
    var w := if v == 0 then 1 else v;
    var a: nat, b: nat :| ThreeStages(w, a, b, x);
    var a': nat, b': nat :| ThreeStages(w, a', b', y);
    StagesUnique(w, a, b, x, a', b', y);
  }

  lemma StagesUnique(v: nat, a: nat, b: nat, x: nat, a': nat, b': nat, y: nat)
    requires ThreeStages(v, a, b, x) && ThreeStages(v, a', b', y)
    ensures x == y
  {
    XorIsUnique(a, a', v, v * 8192 % 0x1_0000_0000);
    XorIsUnique(b, b', a, a / 131072);
    XorIsUnique(x, y, b, b * 32 % 0x1_0000_0000);
  }
}
