/** The stable sort behind every ordered listing. */
module Ordering {
  import opened Sums

  ghost predicate TotalPreorder<R(!new)>(le: (R, R) -> bool) {
    && (forall x, y :: le(x, y) || le(y, x))
    && (forall x, y, z :: le(x, y) && le(y, z) ==> le(x, z))
  }

  ghost predicate Sorted<R>(s: seq<R>, le: (R, R) -> bool) {
    forall j, k | 0 <= j < k < |s| :: le(s[j], s[k])
  }

  /** `x` goes after every element that may precede it. */
  function Insert<R>(s: seq<R>, x: R, le: (R, R) -> bool): (r: seq<R>)
    ensures |r| == |s| + 1
    ensures forall y | y in r :: y == x || y in s
  {
    if s == [] then [x]
    else if le(s[|s| - 1], x) then s + [x]
    else Insert(s[..|s| - 1], x, le) + [s[|s| - 1]]
  }

  function SortBy<R>(s: seq<R>, le: (R, R) -> bool): (r: seq<R>)
    ensures |r| == |s|
  {
    if s == [] then [] else Insert(SortBy(s[..|s| - 1], le), s[|s| - 1], le)
  }

  lemma {:induction false} InsertKeeps<R>(s: seq<R>, x: R, le: (R, R) -> bool)
    ensures multiset(Insert(s, x, le)) == multiset(s) + multiset{x}
  {
    if s != [] && !le(s[|s| - 1], x) {
      var n := |s| - 1;
      InsertKeeps(s[..n], x, le);
      assert s == s[..n] + [s[n]];
    }
  }

  lemma SortedSnoc<R>(s: seq<R>, x: R, le: (R, R) -> bool)
    requires Sorted(s, le) && forall y | y in s :: le(y, x)
    ensures Sorted(s + [x], le)
  {
  }

  lemma UpToLast<R(!new)>(s: seq<R>, le: (R, R) -> bool)
    requires TotalPreorder(le) && Sorted(s, le) && s != []
    ensures Sorted(s[..|s| - 1], le)
    ensures forall y | y in s :: le(y, s[|s| - 1])
  {
    var last := s[|s| - 1];
    assert le(last, last);
    forall y | y in s
      ensures le(y, last)
    {
      var k :| 0 <= k < |s| && s[k] == y;
    }
  }

  lemma {:induction false} InsertSorts<R(!new)>(s: seq<R>, x: R, le: (R, R) -> bool)
    requires TotalPreorder(le) && Sorted(s, le)
    ensures Sorted(Insert(s, x, le), le)
  {
    if s != [] {
      var n := |s| - 1;
      UpToLast(s, le);
      if le(s[n], x) {
        forall y | y in s
          ensures le(y, x)
        {
          assert le(y, s[n]);
        }
        SortedSnoc(s, x, le);
      } else {
        InsertSorts(s[..n], x, le);
        SortedSnoc(Insert(s[..n], x, le), s[n], le);
      }
    }
  }

  lemma {:induction false} SortSorts<R(!new)>(s: seq<R>, le: (R, R) -> bool)
    requires TotalPreorder(le)
    ensures Sorted(SortBy(s, le), le)
    ensures multiset(SortBy(s, le)) == multiset(s)
  {
    if s != [] {
      var n := |s| - 1;
      SortSorts(s[..n], le);
      InsertSorts(SortBy(s[..n], le), s[n], le);
      InsertKeeps(SortBy(s[..n], le), s[n], le);
      assert s == s[..n] + [s[n]];
    }
  }

  lemma {:induction false} InsertKeepsTies<R(!new)>(s: seq<R>, x: R, le: (R, R) -> bool, tied: R -> bool)
    requires TotalPreorder(le) && Sorted(s, le)
    requires forall y, z | tied(y) && tied(z) :: le(y, z)
    ensures Filter(Insert(s, x, le), tied) == Filter(s, tied) + if tied(x) then [x] else []
  {
    if s == [] {
      assert [x][..0] == [];
    } else {
      var n := |s| - 1;
      if le(s[n], x) {
        assert (s + [x])[..n + 1] == s;
      } else {
        InsertKeepsTies(s[..n], x, le, tied);
        var r := Insert(s[..n], x, le);
        assert (r + [s[n]])[..n + 1] == r;
      }
    }
  }

  /** Elements that compare equal keep their order. */
  lemma {:induction false} SortKeepsTies<R(!new)>(s: seq<R>, le: (R, R) -> bool, tied: R -> bool)
    requires TotalPreorder(le)
    requires forall y, z | tied(y) && tied(z) :: le(y, z)
    ensures Filter(SortBy(s, le), tied) == Filter(s, tied)
  {
    if s != [] {
      var n := |s| - 1;
      SortKeepsTies(s[..n], le, tied);
      SortSorts(s[..n], le);
      InsertKeepsTies(SortBy(s[..n], le), s[n], le, tied);
    }
  }
}
