// Streams put together from parts.
module Streams {

  // The first n parts, one after the other.
  function Flatten<T>(parts: seq<seq<T>>, n: nat): seq<T>
    requires n <= |parts|
  {
    if n == 0 then [] else Flatten(parts, n - 1) + parts[n - 1]
  }

  lemma {:induction false} FlattenSame<T>(a: seq<seq<T>>, b: seq<seq<T>>, n: nat)
    requires n <= |a| && n <= |b|
    requires forall k | 0 <= k < n :: a[k] == b[k]
    ensures Flatten(a, n) == Flatten(b, n)
  {
    if n > 0 {
      FlattenSame(a, b, n - 1);
    }
  }

  lemma FlattenAppend<T>(parts: seq<seq<T>>, part: seq<T>)
    ensures Flatten(parts + [part], |parts| + 1) == Flatten(parts, |parts|) + part
  {
    FlattenSame(parts, parts + [part], |parts|);
  }

  // Filling part k, when it and every later one is empty, appends to the stream.
  lemma {:induction false} FlattenFill<T>(parts: seq<seq<T>>, k: nat, part: seq<T>, n: nat)
    requires k < n <= |parts|
    requires forall j | k <= j < n :: parts[j] == []
    ensures Flatten(parts[k := part], n) == Flatten(parts, n) + part
  {
    if n == k + 1 {
      FlattenSame(parts, parts[k := part], k);
    } else {
      FlattenFill(parts, k, part, n - 1);
    }
  }

  lemma {:induction false} FlattenLonger<T>(parts: seq<seq<T>>, m: nat, n: nat, i: nat)
    requires m <= n <= |parts| && i < |Flatten(parts, m)|
    ensures i < |Flatten(parts, n)| && Flatten(parts, n)[i] == Flatten(parts, m)[i]
  {
    if m < n {
      FlattenLonger(parts, m, n - 1, i);
    }
  }

  // Byte j of part k, counted from the start of the whole stream.
  lemma FlattenAt<T>(parts: seq<seq<T>>, k: nat, j: nat)
    requires k < |parts| && j < |parts[k]|
    ensures |Flatten(parts, k)| + j < |Flatten(parts, |parts|)|
    ensures Flatten(parts, |parts|)[|Flatten(parts, k)| + j] == parts[k][j]
  {
    assert Flatten(parts, k + 1)[|Flatten(parts, k)| + j] == parts[k][j];
    FlattenLonger(parts, k + 1, |parts|, |Flatten(parts, k)| + j);
  }
}
