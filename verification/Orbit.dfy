// Iterating an injective step on a finite set always comes back to the start.
module Orbit {

  function Iterate<T>(step: T -> T, x: T, n: nat): T {
    if n == 0 then x else step(Iterate(step, x, n - 1))
  }

  ghost predicate Permutes<T(!new)>(step: T -> T, s: set<T>) {
    && (forall x {:trigger step(x)} :: x in s ==> step(x) in s)
    && (forall x, y {:trigger step(x), step(y)} :: x in s && y in s && step(x) == step(y) ==> x == y)
  }

  lemma {:induction false} Stays<T(!new)>(step: T -> T, s: set<T>, x: T, n: nat)
    requires Permutes(step, s) && x in s
    ensures Iterate(step, x, n) in s
  {
    if n > 0 {
      Stays(step, s, x, n - 1);
    }
  }

  lemma {:induction false} IterateAdds<T>(step: T -> T, x: T, m: nat, n: nat)
    ensures Iterate(step, Iterate(step, x, m), n) == Iterate(step, x, m + n)
  {
    if n > 0 {
      IterateAdds(step, x, m, n - 1);
    }
  }

  lemma {:induction false} Cancel<T(!new)>(step: T -> T, s: set<T>, x: T, i: nat, j: nat)
    requires Permutes(step, s) && x in s
    requires i <= j && Iterate(step, x, i) == Iterate(step, x, j)
    ensures Iterate(step, x, j - i) == x
  {
    if i > 0 {
      Stays(step, s, x, i - 1);
      Stays(step, s, x, j - 1);
      Cancel(step, s, x, i - 1, j - 1);
    }
  }

  // The n points after the start, in order.
  function Trail<T>(step: T -> T, x: T, n: nat): seq<T> {
    if n == 0 then [] else Trail(step, x, n - 1) + [Iterate(step, x, n)]
  }

  lemma {:induction false} TrailSplit<T>(step: T -> T, x: T, m: nat, n: nat)
    ensures Trail(step, x, m + n) == Trail(step, x, m) + Trail(step, Iterate(step, x, m), n)
  {
    if n > 0 {
      TrailSplit(step, x, m, n - 1);
      IterateAdds(step, x, m, n);
    }
  }

  // The first n points of the orbit, the start included.
  function Visited<T>(step: T -> T, x: T, n: nat): set<T> {
    if n == 0 then {} else Visited(step, x, n - 1) + {Iterate(step, x, n - 1)}
  }

  lemma {:induction false} VisitedAt<T>(step: T -> T, x: T, n: nat, w: T) returns (k: nat)
    requires w in Visited(step, x, n)
    ensures k < n && Iterate(step, x, k) == w
  {
    if Iterate(step, x, n - 1) == w {
      k := n - 1;
    } else {
      k := VisitedAt(step, x, n - 1, w);
    }
  }

  lemma {:induction false} VisitedInside<T(!new)>(step: T -> T, s: set<T>, x: T, n: nat)
    requires Permutes(step, s) && x in s
    ensures Visited(step, x, n) <= s
  {
    if n > 0 {
      VisitedInside(step, s, x, n - 1);
      Stays(step, s, x, n - 1);
    }
  }

  // Either two of the first n points agree, or there are n different ones.
  lemma {:induction false} RepeatOrGrow<T>(step: T -> T, x: T, n: nat) returns (i: nat, j: nat)
    ensures if j == 0 then |Visited(step, x, n)| == n
            else i < j < n && Iterate(step, x, i) == Iterate(step, x, j)
  {
    i, j := 0, 0;
    if n > 0 {
      i, j := RepeatOrGrow(step, x, n - 1);
      var w := Iterate(step, x, n - 1);
      if j == 0 && w in Visited(step, x, n - 1) {
        i := VisitedAt(step, x, n - 1, w);
        j := n - 1;
      }
    }
  }

  lemma {:induction false} SubsetSize<T>(a: set<T>, b: set<T>)
    requires a <= b
    ensures |a| <= |b|
  {
    if a != {} {
      var x :| x in a;
      SubsetSize(a - {x}, b - {x});
    }
  }

  lemma Returns<T(!new)>(step: T -> T, s: set<T>, x: T) returns (p: nat)
    requires Permutes(step, s) && x in s
    ensures 0 < p <= |s| && Iterate(step, x, p) == x
  {
    var i, j := RepeatOrGrow(step, x, |s| + 1);
    if j == 0 {
      VisitedInside(step, s, x, |s| + 1);
      SubsetSize(Visited(step, x, |s| + 1), s);
    }
    Cancel(step, s, x, i, j);
    p := j - i;
  }
}
