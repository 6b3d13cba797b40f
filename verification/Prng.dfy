// The shared xorshift32 stream of the bus core.  A 32-bit word is the set of
// the positions of its one bits, so exclusive or is symmetric difference.
module Prng {
  import opened FaultGate
  import opened Orbit

  const WIDTH: nat := 32

  function Bits(n: nat): (r: set<nat>)
    ensures forall i: nat :: i in r <==> i < n
  {
    if n == 0 then {} else Bits(n - 1) + {n - 1}
  }

  type Word = w: set<nat> | w <= Bits(WIDTH) witness {}

  const DEFAULT_SEED: Word := {0}

  // Bit i of x ^ (x << k) and of x ^ (x >> k); bits shifted out are lost.
  predicate ShlBit(x: Word, k: nat, i: nat) {
    i < WIDTH && (i in x) != (i >= k && i - k in x)
  }

  predicate ShrBit(x: Word, k: nat, i: nat) {
    i < WIDTH && (i in x) != (i + k in x)
  }

  function XorShl(x: Word, k: nat): Word {
    set i | i in Bits(WIDTH) && ShlBit(x, k, i)
  }

  function XorShr(x: Word, k: nat): Word {
    set i | i in Bits(WIDTH) && ShrBit(x, k, i)
  }

  function Xorshift(x: Word): Word {
    XorShl(XorShr(XorShl(x, 13), 17), 5)
  }

  // Applying a stage twice doubles its shift, so repeated doubling undoes it.
  function Unshift(y: Word): Word {
    var a := XorShl(XorShl(XorShl(y, 5), 10), 20);
    var b := XorShr(a, 17);
    XorShl(XorShl(b, 13), 26)
  }

  lemma DoubleShl(x: Word, k: nat)
    ensures XorShl(XorShl(x, k), k) == XorShl(x, 2 * k)
  {}

  lemma DoubleShr17(x: Word)
    ensures XorShr(XorShr(x, 17), 17) == x
  {}

  lemma CommuteShl(x: Word, j: nat, k: nat)
    ensures XorShl(XorShl(x, j), k) == XorShl(XorShl(x, k), j)
  {}

  lemma LongShift(x: Word, k: nat)
    requires k >= WIDTH
    ensures XorShl(x, k) == x
  {}

  lemma Stage13(x: Word)
    ensures XorShl(XorShl(XorShl(x, 13), 13), 26) == x
  {
    DoubleShl(x, 13);
    DoubleShl(x, 26);
    LongShift(x, 52);
  }

  lemma Stage5(x: Word)
    ensures XorShl(XorShl(XorShl(XorShl(x, 5), 5), 10), 20) == x
  {
    DoubleShl(x, 5);
    DoubleShl(x, 10);
    DoubleShl(x, 20);
    LongShift(x, 40);
  }

  // The step is a bijection of the 2^32 words: Unshift undoes it on both sides.
  lemma RoundTrip(x: Word)
    ensures Unshift(Xorshift(x)) == x
    ensures Xorshift(Unshift(x)) == x
  {
    Stage5(XorShr(XorShl(x, 13), 17));
    DoubleShr17(XorShl(x, 13));
    Stage13(x);

    var a := XorShl(XorShl(XorShl(x, 5), 10), 20);
    var b := XorShr(a, 17);
    CommuteShl(XorShl(b, 13), 26, 13);
    Stage13(b);
    DoubleShr17(a);
    CommuteShl(XorShl(XorShl(x, 5), 10), 20, 5);
    CommuteShl(XorShl(x, 5), 10, 5);
    Stage5(x);
  }

  lemma Injective(x: Word, y: Word)
    requires Xorshift(x) == Xorshift(y)
    ensures x == y
  {
    RoundTrip(x);
    RoundTrip(y);
  }

  lemma NonZeroStays(x: Word)
    requires x != {}
    ensures Xorshift(x) != {}
  {
    assert Xorshift({}) == {};
    if Xorshift(x) == {} {
      Injective(x, {});
    }
  }

  // One draw: a zero state is replaced by the default seed before the step.
  // The new state is also the value handed out.
  function Next(state: Word): Word {
    Xorshift(if state == {} then DEFAULT_SEED else state)
  }

  // The state after n draws, and the first n values handed out.
  function After(state: Word, n: nat): Word {
    Iterate(Next, state, n)
  }

  function Draws(state: Word, n: nat): seq<Word> {
    Trail(Next, state, n)
  }

  // --- how many words there are ---

  function Pow2(n: nat): (r: nat)
    ensures r > 0
  {
    if n == 0 then 1 else 2 * Pow2(n - 1)
  }

  function WithBit(w: set<nat>, b: nat): set<nat> {
    w + {b}
  }

  function AllWithBit(a: set<set<nat>>, b: nat): set<set<nat>> {
    set w | w in a :: WithBit(w, b)
  }

  function Doubled(a: set<set<nat>>, b: nat): set<set<nat>> {
    a + AllWithBit(a, b)
  }

  // All words of n bits.
  function Words(n: nat): set<set<nat>> {
    if n == 0 then {{}} else Doubled(Words(n - 1), n - 1)
  }

  lemma {:induction false} ImageSize(a: set<set<nat>>, b: nat)
    requires forall w | w in a :: Lacks(w, b)
    ensures |AllWithBit(a, b)| == |a|
  {
    if a == {} {
      assert AllWithBit(a, b) == {};
    } else {
      var w0 :| w0 in a;
      ImageSize(a - {w0}, b);
      forall w1 | w1 in a - {w0} ensures WithBit(w1, b) != WithBit(w0, b) {
        assert w1 == WithBit(w1, b) - {b} && w0 == WithBit(w0, b) - {b};
      }
      assert AllWithBit(a, b) == AllWithBit(a - {w0}, b) + {WithBit(w0, b)};
    }
  }

  predicate Lacks(w: set<nat>, b: nat) {
    b !in w
  }

  lemma DoubleSize(a: set<set<nat>>, b: nat)
    requires forall w | w in a :: Lacks(w, b)
    ensures |Doubled(a, b)| == 2 * |a|
  {
    ImageSize(a, b);
    assert a !! AllWithBit(a, b);
  }

  lemma {:induction false} WordsSound(n: nat, w: set<nat>)
    requires w in Words(n)
    ensures w <= Bits(n)
  {
    if n > 0 {
      var b := n - 1;
      if w in Words(b) {
        WordsSound(b, w);
      } else {
        var u :| u in Words(b) && w == WithBit(u, b);
        WordsSound(b, u);
      }
    }
  }

  lemma {:induction false} WordsComplete(n: nat, w: set<nat>)
    requires w <= Bits(n)
    ensures w in Words(n)
  {
    if n == 0 {
      assert w == {};
    } else {
      var b := n - 1;
      var v := w - {b};
      WordsComplete(b, v);
      assert WithBit(v, b) in AllWithBit(Words(b), b);
      assert w == v || w == WithBit(v, b);
    }
  }

  lemma LowWordsLack(n: nat)
    ensures forall w | w in Words(n) :: Lacks(w, n)
  {
    var low := Words(n);
    forall w | w in low ensures Lacks(w, n) {
      WordsSound(n, w);
    }
  }

  lemma EmptyWord()
    ensures |Words(0)| == Pow2(0)
  {}

  lemma OneMoreBit(n: nat)
    requires n > 0 && |Words(n - 1)| == Pow2(n - 1)
    ensures |Words(n)| == Pow2(n)
  {
    var low := Words(n - 1);
    LowWordsLack(n - 1);
    DoubledCount(low, n);
  }

  lemma {:induction false} WordsCount(n: nat)
    ensures |Words(n)| == Pow2(n)
  {
    if n == 0 {
      EmptyWord();
    } else {
      WordsCount(n - 1);
      OneMoreBit(n);
    }
  }

  lemma DoubledCount(low: set<set<nat>>, n: nat)
    requires n > 0 && |low| == Pow2(n - 1) && forall w | w in low :: Lacks(w, n - 1)
    ensures |Doubled(low, n - 1)| == Pow2(n)
  {
    DoubleSize(low, n - 1);
  }

  lemma AllWords(n: nat) returns (words: set<set<nat>>)
    ensures |words| == Pow2(n)
    ensures forall w: set<nat> :: w in words <==> w <= Bits(n)
  {
    words := Words(n);
    WordsCount(n);
    forall w: set<nat> ensures w in words <==> w <= Bits(n) {
      if w in words {
        WordsSound(n, w);
      } else if w <= Bits(n) {
        WordsComplete(n, w);
      }
    }
  }

  // --- the stream over a whole run ---

  lemma StepPermutes(step: Word -> Word, s: set<Word>)
    requires step == Next
    requires forall w: Word :: w in s <==> w != {}
    ensures Permutes(step, s)
  {
    forall x: Word | x in s ensures step(x) in s {
      NonZeroStays(x);
    }
    forall x: Word, y: Word | x in s && y in s && step(x) == step(y) ensures x == y {
      Injective(x, y);
    }
  }

  // Every non-zero seed comes back after at most 2^32 - 1 draws.
  lemma OrbitReturns(seed: Word) returns (p: nat)
    requires seed != {}
    ensures 0 < p < Pow2(WIDTH)
    ensures After(seed, p) == seed
  {
    var words := AllWords(WIDTH);
    var s: set<Word> := words - {{}};
    StepPermutes(Next, s);
    p := Returns(Next, s, seed);
  }

  // With the orbit: the stream of draws is purely periodic.
  lemma StreamRepeats(seed: Word, n: nat) returns (p: nat)
    requires seed != {}
    ensures 0 < p < Pow2(WIDTH)
    ensures Draws(seed, p + n) == Draws(seed, p) + Draws(seed, n)
  {
    p := OrbitReturns(seed);
    TrailSplit(Next, seed, p, n);
  }

  // --- the value of a word, as the gates use it ---

  function Value(w: set<nat>, n: nat): nat {
    if n == 0 then 0 else Value(w, n - 1) + if n - 1 in w then Pow2(n - 1) else 0
  }

  lemma {:induction false} ValueBound(w: set<nat>, n: nat)
    ensures Value(w, n) < Pow2(n)
  {
    if n > 0 {
      ValueBound(w, n - 1);
    }
  }

  // Different words have different values, so no draw is lost by reading it.
  lemma {:induction false} ValueInjective(v: set<nat>, w: set<nat>, n: nat)
    requires v <= Bits(n) && w <= Bits(n) && Value(v, n) == Value(w, n)
    ensures v == w
  {
    if n > 0 {
      ValueBound(v, n - 1);
      ValueBound(w, n - 1);
      var v', w' := v - {n - 1}, w - {n - 1};
      ValueIgnores(v, n - 1, n - 1);
      ValueIgnores(w, n - 1, n - 1);
      ValueInjective(v', w', n - 1);
      assert v == (if n - 1 in v then v' + {n - 1} else v');
      assert w == (if n - 1 in w then w' + {n - 1} else w');
    }
  }

  lemma {:induction false} ValueIgnores(w: set<nat>, n: nat, b: nat)
    requires b >= n
    ensures Value(w - {b}, n) == Value(w, n)
  {
    if n > 0 {
      ValueIgnores(w, n - 1, b);
    }
  }

  // The word with a given value.
  function ToWord(n: nat, width: nat): (w: set<nat>)
    ensures w <= Bits(width)
  {
    if width == 0 then {}
    else if n >= Pow2(width - 1) then ToWord(n - Pow2(width - 1), width - 1) + {width - 1}
    else ToWord(n, width - 1)
  }

  lemma {:induction false} ToWordRoundTrip(n: nat, width: nat)
    requires n < Pow2(width)
    ensures Value(ToWord(n, width), width) == n
  {
    if width > 0 {
      var b := width - 1;
      var rest := if n >= Pow2(b) then n - Pow2(b) else n;
      ToWordRoundTrip(rest, b);
      assert ToWord(n, width) - {b} == ToWord(rest, b);
      ValueIgnores(ToWord(n, width), b, b);
    }
  }

  lemma {:induction false} ZeroHasNoBits(width: nat)
    ensures Value({}, width) == 0
  {
    if width > 0 {
      ZeroHasNoBits(width - 1);
    }
  }

  lemma NonZeroWord(n: nat, width: nat)
    requires 0 < n < Pow2(width)
    ensures ToWord(n, width) != {}
  {
    ToWordRoundTrip(n, width);
    ZeroHasNoBits(width);
  }

  lemma {:induction false} Pow2Adds(a: nat, b: nat)
    ensures Pow2(a + b) == Pow2(a) * Pow2(b)
  {
    if b > 0 {
      Pow2Adds(a, b - 1);
      assert Pow2(a + b) == 2 * Pow2(a + b - 1);
      TwiceProduct(Pow2(a), Pow2(b - 1));
    }
  }

  lemma TwiceProduct(x: nat, y: nat)
    ensures 2 * (x * y) == x * (2 * y)
  {}

  // The values of words are exactly the draws the gates work on.
  lemma WordsAreDraws(w: Word)
    ensures Pow2(WIDTH) == U32 && Value(w, WIDTH) < U32
  {
    assert Pow2(4) == 16;
    Pow2Adds(4, 4);
    Pow2Adds(8, 8);
    Pow2Adds(16, 16);
    ValueBound(w, WIDTH);
  }
}
