/** Sums over sequences, and how they change when one element does. */
module Sums {

  function Sum<T>(f: T -> int, s: seq<T>): int {
    if s == [] then 0 else Sum(f, s[..|s| - 1]) + f(s[|s| - 1])
  }

  function Remove<T>(s: seq<T>, i: nat): seq<T>
    requires i < |s|
  {
    s[..i] + s[i + 1..]
  }

  lemma {:induction false} SumConcat<T>(f: T -> int, a: seq<T>, b: seq<T>)
    ensures Sum(f, a + b) == Sum(f, a) + Sum(f, b)
    decreases |b|
  {
    if b == [] {
      assert a + b == a;
    } else {
      var front := b[..|b| - 1];
      assert (a + b)[..|a + b| - 1] == a + front;
      SumConcat(f, a, front);
    }
  }

  lemma SumSnoc<T>(f: T -> int, s: seq<T>, x: T)
    ensures Sum(f, s + [x]) == Sum(f, s) + f(x)
  {
    assert (s + [x])[..|s|] == s;
  }

  /** A sum split around one element. */
  lemma SumAround<T>(f: T -> int, a: seq<T>, x: T, b: seq<T>)
    ensures Sum(f, a + [x] + b) == Sum(f, a) + f(x) + Sum(f, b)
  {
    SumConcat(f, a + [x], b);
    SumSnoc(f, a, x);
  }

  lemma SumUpdate<T>(f: T -> int, s: seq<T>, i: nat, x: T)
    requires i < |s|
    ensures Sum(f, s[i := x]) == Sum(f, s) - f(s[i]) + f(x)
  {
    SumAround(f, s[..i], s[i], s[i + 1..]);
    SumAround(f, s[..i], x, s[i + 1..]);
    assert s[..i] + [s[i]] + s[i + 1..] == s;
    assert s[..i] + [x] + s[i + 1..] == s[i := x];
  }

  lemma {:induction false} SumRemove<T>(f: T -> int, s: seq<T>, i: nat)
    requires i < |s|
    ensures Sum(f, Remove(s, i)) == Sum(f, s) - f(s[i])
    decreases |s|
  {
    var front, r := s[..|s| - 1], Remove(s, i);
    if i == |s| - 1 {
      assert r == front;
    } else {
      assert r[..|r| - 1] == Remove(front, i);
      assert r[|r| - 1] == s[|s| - 1] && front[i] == s[i];
      SumRemove(f, front, i);
    }
  }

  lemma {:induction false} SumBounds<T>(f: T -> int, s: seq<T>)
    requires forall i | 0 <= i < |s| :: f(s[i]) >= 0
    ensures Sum(f, s) >= 0
    ensures forall i | 0 <= i < |s| :: Sum(f, s) >= f(s[i])
  {
    if s != [] { SumBounds(f, s[..|s| - 1]); }
  }

  /** Where f counts nothing, a quantity that lives only on what f counts is nothing too. */
  lemma {:induction false} SumZero<T>(f: T -> int, g: T -> int, s: seq<T>)
    requires forall i | 0 <= i < |s| :: f(s[i]) >= 0 && (f(s[i]) == 0 ==> g(s[i]) == 0)
    requires Sum(f, s) == 0
    ensures Sum(g, s) == 0
  {
    if s != [] {
      SumBounds(f, s);
      SumBounds(f, s[..|s| - 1]);
      SumZero(f, g, s[..|s| - 1]);
    }
  }

  /** Where f counts one element only, the sum of such a quantity is that element's. */
  lemma SumLone<T>(f: T -> int, g: T -> int, s: seq<T>, i: nat)
    requires forall i | 0 <= i < |s| :: f(s[i]) >= 0 && (f(s[i]) == 0 ==> g(s[i]) == 0)
    requires i < |s| && Sum(f, s) == f(s[i])
    ensures Sum(g, s) == g(s[i])
  {
    SumRemove(f, s, i);
    SumRemove(g, s, i);
    SumZero(f, g, Remove(s, i));
  }
}
