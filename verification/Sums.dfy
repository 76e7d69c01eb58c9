/** Finite sums over sequences, and the laws the money theorems rest on. */
module Sums {

  function Sum<T>(s: seq<T>, f: T -> int): int {
    if s == [] then 0 else Sum(s[..|s| - 1], f) + f(s[|s| - 1])
  }

  lemma SumSnoc<T>(s: seq<T>, x: T, f: T -> int)
    ensures Sum(s + [x], f) == Sum(s, f) + f(x)
  {
    assert (s + [x])[..|s|] == s;
  }

  lemma {:induction false} SumConcat<T>(s: seq<T>, t: seq<T>, f: T -> int)
    ensures Sum(s + t, f) == Sum(s, f) + Sum(t, f)
  {
    if t == [] {
      assert s + t == s;
    } else {
      SumConcat(s, t[..|t| - 1], f);
      assert (s + t)[..|s + t| - 1] == s + t[..|t| - 1];
    }
  }

  lemma {:induction false} SumUpdate<T>(s: seq<T>, i: nat, x: T, f: T -> int)
    requires i < |s|
    ensures Sum(s[i := x], f) == Sum(s, f) - f(s[i]) + f(x)
  {
    var n := |s| - 1;
    if i == n {
      assert s[i := x][..n] == s[..n];
    } else {
      SumUpdate(s[..n], i, x, f);
      assert s[i := x][..n] == s[..n][i := x];
    }
  }

  /** Two sums over tables of the same length whose terms differ pointwise by a third. */
  lemma {:induction false} SumPointwise<T, U, V>(s: seq<T>, f: T -> int, t: seq<U>, g: U -> int, r: seq<V>, h: V -> int)
    requires |s| == |t| == |r|
    requires forall i | 0 <= i < |s| :: f(s[i]) == g(t[i]) + h(r[i])
    ensures Sum(s, f) == Sum(t, g) + Sum(r, h)
  {
    if s != [] {
      var n := |s| - 1;
      SumPointwise(s[..n], f, t[..n], g, r[..n], h);
    }
  }

  lemma {:induction false} SumZero<T>(s: seq<T>, f: T -> int)
    requires forall i | 0 <= i < |s| :: f(s[i]) == 0
    ensures Sum(s, f) == 0
  {
    if s != [] {
      SumZero(s[..|s| - 1], f);
    }
  }

  /** If only one term can be other than zero, the sum is that term. */
  lemma {:induction false} SumOfOne<T>(s: seq<T>, f: T -> int, z: nat)
    requires z < |s| && forall i | 0 <= i < |s| && i != z :: f(s[i]) == 0
    ensures Sum(s, f) == f(s[z])
  {
    var n := |s| - 1;
    if z == n {
      SumZero(s[..n], f);
    } else {
      SumOfOne(s[..n], f, z);
    }
  }

  lemma SumEqual<T>(s: seq<T>, f: T -> int, g: T -> int)
    requires forall i | 0 <= i < |s| :: f(s[i]) == g(s[i])
    ensures Sum(s, f) == Sum(s, g)
  {
    var zero := (x: T) => 0;
    SumZero(s, zero);
    SumPointwise(s, f, s, g, s, zero);
  }

  /** Termwise smaller tables have smaller sums, strictly so if one term is. */
  lemma {:induction false} SumLess<T, U>(s: seq<T>, f: T -> int, t: seq<U>, g: U -> int)
    requires |s| == |t|
    requires forall i | 0 <= i < |s| :: f(s[i]) <= g(t[i])
    ensures Sum(s, f) <= Sum(t, g)
    ensures (exists i :: 0 <= i < |s| && f(s[i]) < g(t[i])) ==> Sum(s, f) < Sum(t, g)
  {
    if s != [] {
      var n := |s| - 1;
      SumLess(s[..n], f, t[..n], g);
      if i :| 0 <= i < |s| && f(s[i]) < g(t[i]) {
        if i < n {
          assert f(s[..n][i]) < g(t[..n][i]);
        }
      }
    }
  }

  function Filter<T>(s: seq<T>, p: T -> bool): (r: seq<T>)
    ensures |r| <= |s|
    ensures forall x | x in r :: x in s && p(x)
    ensures forall x | x in s && p(x) :: x in r
  {
    if s == [] then []
    else
      var rest := Filter(s[..|s| - 1], p);
      if p(s[|s| - 1]) then rest + [s[|s| - 1]] else rest
  }

  lemma FilterSnoc<T>(s: seq<T>, x: T, p: T -> bool)
    ensures Filter(s + [x], p) == Filter(s, p) + if p(x) then [x] else []
  {
    assert (s + [x])[..|s|] == s;
  }

  function Masked<T>(p: T -> bool, f: T -> int): T -> int {
    (x: T) => if p(x) then f(x) else 0
  }

  lemma {:induction false} SumFilter<T>(s: seq<T>, p: T -> bool, f: T -> int)
    ensures Sum(Filter(s, p), f) == Sum(s, Masked(p, f))
  {
    if s != [] {
      var n := |s| - 1;
      SumFilter(s[..n], p, f);
      if p(s[n]) {
        SumSnoc(Filter(s[..n], p), s[n], f);
      }
    }
  }
}
