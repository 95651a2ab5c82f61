/** Sums and multisets taken over a sequence: the arithmetic behind every
    stock-accounting statement of the model. */
module Totals {

  /** The sum of `w` over all elements of `s`. */
  function Total<T>(s: seq<T>, w: T -> int): int {
    if s == [] then 0 else Total(s[..|s| - 1], w) + w(s[|s| - 1])
  }

  /** The union of `pick` over all elements of `s`. */
  function Bag<T, U>(s: seq<T>, pick: T -> multiset<U>): multiset<U> {
    if s == [] then multiset{} else Bag(s[..|s| - 1], pick) + pick(s[|s| - 1])
  }

  lemma TotalSnoc<T>(s: seq<T>, n: nat, w: T -> int)
    requires n < |s|
    ensures Total(s[..n + 1], w) == Total(s[..n], w) + w(s[n])
  {
    assert s[..n + 1][..n] == s[..n];
  }

  lemma TotalAppend<T>(s: seq<T>, x: T, w: T -> int)
    ensures Total(s + [x], w) == Total(s, w) + w(x)
  {
    assert (s + [x])[..|s|] == s;
  }

  lemma BagAppend<T, U>(s: seq<T>, x: T, pick: T -> multiset<U>)
    ensures Bag(s + [x], pick) == Bag(s, pick) + pick(x)
  {
    assert (s + [x])[..|s|] == s;
  }

  lemma {:induction false} TotalConcat<T>(a: seq<T>, b: seq<T>, w: T -> int)
    ensures Total(a + b, w) == Total(a, w) + Total(b, w)
  {
    if b == [] {
      assert a + b == a;
    } else {
      var c := b[..|b| - 1];
      assert (a + b)[..|a + b| - 1] == a + c;
      TotalConcat(a, c, w);
    }
  }

  lemma {:induction false} TotalUpdate<T>(s: seq<T>, i: nat, x: T, w: T -> int)
    requires i < |s|
    ensures Total(s[i := x], w) == Total(s, w) - w(s[i]) + w(x)
  {
    var n := |s| - 1;
    if i == n {
      assert s[i := x][..n] == s[..n];
    } else {
      assert s[i := x][..n] == s[..n][i := x];
      TotalUpdate(s[..n], i, x, w);
    }
  }

  lemma {:induction false} TotalMonotone<T>(s: seq<T>, v: T -> int, w: T -> int)
    requires forall x | x in s :: v(x) <= w(x)
    ensures Total(s, v) <= Total(s, w)
  {
    if s != [] {
      assert forall x | x in s[..|s| - 1] :: x in s;
      TotalMonotone(s[..|s| - 1], v, w);
    }
  }

  lemma {:induction false} TotalNonNegative<T>(s: seq<T>, w: T -> int)
    requires forall x | x in s :: 0 <= w(x)
    ensures 0 <= Total(s, w)
    ensures forall x | x in s :: w(x) <= Total(s, w)
  {
    if s != [] {
      assert forall x | x in s[..|s| - 1] :: x in s;
      TotalNonNegative(s[..|s| - 1], w);
      assert forall x | x in s :: x in s[..|s| - 1] || x == s[|s| - 1];
    }
  }

  lemma {:induction false} TotalSplit<T>(s: seq<T>, u: T -> int, v: T -> int, w: T -> int)
    requires forall x | x in s :: w(x) == u(x) + v(x)
    ensures Total(s, w) == Total(s, u) + Total(s, v)
  {
    if s != [] {
      assert forall x | x in s[..|s| - 1] :: x in s;
      TotalSplit(s[..|s| - 1], u, v, w);
    }
  }

  function Without<T>(s: seq<T>, k: nat): seq<T>
    requires k < |s|
  {
    s[..k] + s[k + 1..]
  }

  lemma CutOut<T>(s: seq<T>, k: nat)
    requires k < |s|
    ensures s == s[..k] + [s[k]] + s[k + 1..]
  {}

  lemma WithoutElements<T>(s: seq<T>, k: nat)
    requires k < |s|
    ensures multiset(Without(s, k)) == multiset(s) - multiset{s[k]}
  {
    CutOut(s, k);
  }

  lemma TotalInsert<T>(a: seq<T>, x: T, b: seq<T>, w: T -> int)
    ensures Total(a + [x] + b, w) == Total(a + b, w) + w(x)
  {
    TotalAppend(a, x, w);
    TotalConcat(a + [x], b, w);
    TotalConcat(a, b, w);
  }

  lemma WithoutTotal<T>(s: seq<T>, k: nat, w: T -> int)
    requires k < |s|
    ensures Total(s, w) == Total(Without(s, k), w) + w(s[k])
  {
    CutOut(s, k);
    TotalInsert(s[..k], s[k], s[k + 1..], w);
  }

  /** A total does not depend on the order of the elements. */
  lemma {:induction false} TotalPermuted<T>(a: seq<T>, b: seq<T>, w: T -> int)
    requires multiset(a) == multiset(b)
    ensures Total(a, w) == Total(b, w)
  {
    if a == [] {
      assert |multiset(b)| == |b|;
    } else {
      var n := |a| - 1;
      assert a == a[..n] + [a[n]];
      assert a[n] in multiset(b);
      var k :| 0 <= k < |b| && b[k] == a[n];
      WithoutElements(b, k);
      WithoutTotal(b, k, w);
      assert multiset(a[..n]) == multiset(a) - multiset{a[n]};
      TotalPermuted(a[..n], Without(b, k), w);
    }
  }

  lemma {:induction false} BagConcat<T, U>(a: seq<T>, b: seq<T>, pick: T -> multiset<U>)
    ensures Bag(a + b, pick) == Bag(a, pick) + Bag(b, pick)
  {
    if b == [] {
      assert a + b == a;
    } else {
      var c := b[..|b| - 1];
      assert (a + b)[..|a + b| - 1] == a + c;
      BagConcat(a, c, pick);
    }
  }

  lemma {:induction false} BagEmpty<T, U>(s: seq<T>, pick: T -> multiset<U>)
    ensures Bag(s, pick) == multiset{} <==> forall x | x in s :: pick(x) == multiset{}
  {
    if s != [] {
      BagEmpty(s[..|s| - 1], pick);
      assert forall x | x in s :: x in s[..|s| - 1] || x == s[|s| - 1];
      assert forall x | x in s[..|s| - 1] :: x in s;
      assert s[|s| - 1] in s;
    }
  }

  lemma {:induction false} BagNothing<T, U>(s: seq<T>, pick: T -> multiset<U>)
    requires forall i | 0 <= i < |s| :: pick(s[i]) == multiset{}
    ensures Bag(s, pick) == multiset{}
  {
    if s != [] {
      BagNothing(s[..|s| - 1], pick);
    }
  }

  lemma BagSkipsTail<T, U>(s: seq<T>, end: nat, pick: T -> multiset<U>)
    requires end <= |s| && forall i | end <= i < |s| :: pick(s[i]) == multiset{}
    ensures Bag(s, pick) == Bag(s[..end], pick)
  {
    var tail := s[end..];
    assert s == s[..end] + tail;
    BagConcat(s[..end], tail, pick);
    BagNothing(tail, pick);
  }

  lemma BagSkipsHead<T, U>(s: seq<T>, at: nat, pick: T -> multiset<U>)
    requires at <= |s| && forall i | 0 <= i < at :: pick(s[i]) == multiset{}
    ensures Bag(s, pick) == Bag(s[at..], pick)
  {
    var head := s[..at];
    assert s == head + s[at..];
    BagConcat(head, s[at..], pick);
    BagNothing(head, pick);
  }

  /** Only the elements of one slice contribute. */
  lemma BagBetween<T, U>(s: seq<T>, at: nat, end: nat, pick: T -> multiset<U>)
    requires at <= end <= |s|
    requires forall i | 0 <= i < |s| && !(at <= i < end) :: pick(s[i]) == multiset{}
    ensures Bag(s, pick) == Bag(s[at..end], pick)
  {
    BagSkipsTail(s, end, pick);
    BagSkipsHead(s[..end], at, pick);
    assert s[..end][at..] == s[at..end];
  }

  /** Equal picks, position by position, give equal bags. */
  lemma {:induction false} BagAligned<T, U, V>(a: seq<T>, b: seq<U>, f: T -> multiset<V>, g: U -> multiset<V>)
    requires |a| == |b|
    requires forall i | 0 <= i < |a| :: f(a[i]) == g(b[i])
    ensures Bag(a, f) == Bag(b, g)
  {
    if a != [] {
      var n := |a| - 1;
      assert forall i | 0 <= i < n :: f(a[..n][i]) == g(b[..n][i]);
      BagAligned(a[..n], b[..n], f, g);
    }
  }

  /** Equal weights, position by position, give equal totals. */
  lemma {:induction false} TotalAligned<T, U>(a: seq<T>, b: seq<U>, f: T -> int, g: U -> int)
    requires |a| == |b|
    requires forall i | 0 <= i < |a| :: f(a[i]) == g(b[i])
    ensures Total(a, f) == Total(b, g)
  {
    if a != [] {
      var n := |a| - 1;
      assert forall i | 0 <= i < n :: f(a[..n][i]) == g(b[..n][i]);
      TotalAligned(a[..n], b[..n], f, g);
    }
  }

  function Self<T>(): T -> multiset<T> { (x: T) => multiset{x} }

  lemma {:induction false} BagSelf<T>(s: seq<T>)
    ensures Bag(s, Self()) == multiset(s)
  {
    if s != [] {
      BagSelf(s[..|s| - 1]);
      assert s == s[..|s| - 1] + [s[|s| - 1]];
    }
  }

  lemma {:induction false} BagPermuted<T, U>(a: seq<T>, b: seq<T>, pick: T -> multiset<U>)
    requires multiset(a) == multiset(b)
    ensures Bag(a, pick) == Bag(b, pick)
  {
    if a == [] {
      assert |multiset(b)| == |b|;
    } else {
      var n := |a| - 1;
      var x := a[n];
      assert a == a[..n] + [x];
      assert x in multiset(b);
      var k :| 0 <= k < |b| && b[k] == x;
      var rest := b[..k] + b[k + 1..];
      assert b == b[..k] + [x] + b[k + 1..];
      assert multiset(rest) == multiset(b) - multiset{x};
      assert multiset(a[..n]) == multiset(a) - multiset{x};
      BagPermuted(a[..n], rest, pick);
      BagConcat(b[..k], b[k + 1..], pick);
      BagConcat(b[..k] + [x], b[k + 1..], pick);
      BagConcat(b[..k], [x], pick);
      assert [x][..0] == [];
    }
  }

  lemma {:induction false} BagSplit<T, U>(s: seq<T>, f: T -> multiset<U>, g: T -> multiset<U>, pick: T -> multiset<U>)
    requires forall x | x in s :: pick(x) == f(x) + g(x)
    ensures Bag(s, pick) == Bag(s, f) + Bag(s, g)
  {
    if s != [] {
      assert forall x | x in s[..|s| - 1] :: x in s;
      BagSplit(s[..|s| - 1], f, g, pick);
    }
  }

  /** A sub-multiset weighs no more. */
  lemma {:induction false} TotalSubset<T>(a: seq<T>, b: seq<T>, w: T -> int)
    requires multiset(a) <= multiset(b) && forall x | x in b :: 0 <= w(x)
    ensures Total(a, w) <= Total(b, w)
  {
    if a == [] {
      TotalNonNegative(b, w);
    } else {
      var n := |a| - 1;
      assert a == a[..n] + [a[n]];
      assert a[n] in multiset(b);
      var k :| 0 <= k < |b| && b[k] == a[n];
      var rest := Without(b, k);
      WithoutElements(b, k);
      WithoutTotal(b, k, w);
      assert forall x | x in rest :: x in b;
      assert multiset(a[..n]) == multiset(a) - multiset{a[n]};
      TotalSubset(a[..n], rest, w);
    }
  }
}
