/** A stable sort by a total preorder, as `Array.prototype.sort` with a comparator performs it. */
module Sorting {
  import opened Base

  ghost predicate TotalPreorder<T(!new)>(le: (T, T) -> bool) {
    && (forall a, b :: le(a, b) || le(b, a))
    && (forall a, b, c :: le(a, b) && le(b, c) ==> le(a, c))
  }

  ghost predicate TotalOrder<T(!new)>(le: (T, T) -> bool) {
    TotalPreorder(le) && forall a, b :: le(a, b) && le(b, a) ==> a == b
  }

  ghost predicate Sorted<T>(le: (T, T) -> bool, s: seq<T>) {
    forall i, j :: 0 <= i < j < |s| ==> le(s[i], s[j])
  }

  /** Puts `x` behind every element that may come before it. */
  function Insert<T>(le: (T, T) -> bool, s: seq<T>, x: T): (r: seq<T>)
    ensures multiset(r) == multiset(s) + multiset{x}
  {
    if s == [] then [x]
    else
      var n := |s| - 1;
      assert s == s[..n] + [s[n]];
      if le(s[n], x) then s + [x] else Insert(le, s[..n], x) + [s[n]]
  }

  function Sort<T>(le: (T, T) -> bool, s: seq<T>): (r: seq<T>)
    ensures multiset(r) == multiset(s)
  {
    if s == [] then []
    else
      var n := |s| - 1;
      assert s == s[..n] + [s[n]];
      Insert(le, Sort(le, s[..n]), s[n])
  }

  lemma SameMembers<T>(a: seq<T>, b: seq<T>)
    requires multiset(a) == multiset(b)
    ensures |a| == |b| && forall x :: x in a <==> x in b
  {
    assert |multiset(a)| == |a| && |multiset(b)| == |b|;
    forall x ensures x in a <==> x in b {
      assert x in a <==> x in multiset(a);
      assert x in b <==> x in multiset(b);
    }
  }

  lemma {:induction false} InsertSorted<T(!new)>(le: (T, T) -> bool, s: seq<T>, x: T)
    requires TotalPreorder(le) && Sorted(le, s)
    ensures Sorted(le, Insert(le, s, x))
  {
    if s != [] {
      var n := |s| - 1;
      if le(s[n], x) {
        var r := s + [x];
        forall i, j | 0 <= i < j < |r| ensures le(r[i], r[j]) {
          if j == |s| && i < n {
            assert le(s[i], s[n]);
          }
        }
      } else {
        InsertSorted(le, s[..n], x);
        var front := Insert(le, s[..n], x);
        InsertMembers(le, s[..n], x);
        forall i | 0 <= i < |front| ensures le(front[i], s[n]) {
          assert front[i] in front;
        }
        var r := front + [s[n]];
        forall i, j | 0 <= i < j < |r| ensures le(r[i], r[j]) {
          assert j < |front| ==> le(front[i], front[j]);
        }
      }
    }
  }

  lemma InsertMembers<T>(le: (T, T) -> bool, s: seq<T>, x: T)
    ensures forall y :: y in Insert(le, s, x) <==> y in s || y == x
  {
    SameMembers(Insert(le, s, x), s + [x]);
    assert forall y :: y in s + [x] <==> y in s || y == x;
  }

  lemma {:induction false} SortSorted<T(!new)>(le: (T, T) -> bool, s: seq<T>)
    requires TotalPreorder(le)
    ensures Sorted(le, Sort(le, s))
  {
    if s != [] {
      var n := |s| - 1;
      SortSorted(le, s[..n]);
      InsertSorted(le, Sort(le, s[..n]), s[n]);
    }
  }

  /** Elements that compare equal are the same: the preorder tells the members of `s` apart. */
  ghost predicate Separates<T>(le: (T, T) -> bool, s: seq<T>) {
    forall a, b :: a in s && b in s && le(a, b) && le(b, a) ==> a == b
  }

  /** Two sorted lists of the same elements are the same list. */
  lemma {:induction false} SortedUnique<T(!new)>(le: (T, T) -> bool, a: seq<T>, b: seq<T>)
    requires TotalPreorder(le) && Separates(le, a)
    requires Sorted(le, a) && Sorted(le, b) && multiset(a) == multiset(b)
    ensures a == b
  {
    hide TotalPreorder;
    SameMembers(a, b);
    if a != [] {
      var n := |a| - 1;
      LastsAgree(le, a, b);
      DropLast(a, b);
      SeparatesFront(le, a, n);
      SortedFront(le, a, n);
      SortedFront(le, b, n);
      SortedUnique(le, a[..n], b[..n]);
      assert a == a[..n] + [a[n]] && b == b[..n] + [b[n]];
    }
  }

  lemma LastsAgree<T(!new)>(le: (T, T) -> bool, a: seq<T>, b: seq<T>)
    requires TotalPreorder(le) && Separates(le, a) && a != [] && |a| == |b|
    requires Sorted(le, a) && Sorted(le, b) && forall x :: x in a <==> x in b
    ensures a[|a| - 1] == b[|b| - 1]
  {
    hide TotalPreorder;
    var n := |a| - 1;
    assert a[n] in a && b[n] in b;
    LastIsGreatest(le, a, b[n]);
    LastIsGreatest(le, b, a[n]);
  }

  lemma DropLast<T>(a: seq<T>, b: seq<T>)
    requires multiset(a) == multiset(b) && a != [] && |a| == |b| && a[|a| - 1] == b[|b| - 1]
    ensures multiset(a[..|a| - 1]) == multiset(b[..|b| - 1])
  {
    var n := |a| - 1;
    assert a == a[..n] + [a[n]] && b == b[..n] + [b[n]];
    assert multiset(a[..n]) == multiset(a) - multiset{a[n]};
    assert multiset(b[..n]) == multiset(b) - multiset{b[n]};
  }

  lemma SeparatesFront<T(!new)>(le: (T, T) -> bool, s: seq<T>, n: nat)
    requires Separates(le, s) && n <= |s|
    ensures Separates(le, s[..n])
  {
    assert forall x :: x in s[..n] ==> x in s;
  }

  lemma SortedFront<T>(le: (T, T) -> bool, s: seq<T>, n: nat)
    requires Sorted(le, s) && n <= |s|
    ensures Sorted(le, s[..n])
  {
  }

  lemma LastIsGreatest<T(!new)>(le: (T, T) -> bool, s: seq<T>, x: T)
    requires TotalPreorder(le) && Sorted(le, s) && s != [] && x in s
    ensures le(x, s[|s| - 1])
  {
    var i :| 0 <= i < |s| && s[i] == x;
  }

  /** Sorting forgets the order it was given, when no two elements compare equal. */
  lemma SortForgetsOrder<T(!new)>(le: (T, T) -> bool, a: seq<T>, b: seq<T>)
    requires TotalPreorder(le) && Separates(le, a) && multiset(a) == multiset(b)
    ensures Sort(le, a) == Sort(le, b)
  {
    SortSorted(le, a);
    SortSorted(le, b);
    SameMembers(a, Sort(le, a));
    SortedUnique(le, Sort(le, a), Sort(le, b));
  }

  function Map<T, U>(f: T -> U, s: seq<T>): (r: seq<U>)
    ensures |r| == |s| && forall i :: 0 <= i < |s| ==> r[i] == f(s[i])
  {
    seq(|s|, i requires 0 <= i < |s| => f(s[i]))
  }

  /** A change that the order does not see commutes with sorting. */
  lemma {:induction false} SortMap<T(!new)>(le: (T, T) -> bool, f: T -> T, s: seq<T>)
    requires forall a, b :: le(f(a), f(b)) == le(a, b)
    ensures Sort(le, Map(f, s)) == Map(f, Sort(le, s))
  {
    if s != [] {
      var n := |s| - 1;
      assert Map(f, s)[..n] == Map(f, s[..n]);
      SortMap(le, f, s[..n]);
      InsertMap(le, f, Sort(le, s[..n]), s[n]);
    }
  }

  lemma {:induction false} InsertMap<T(!new)>(le: (T, T) -> bool, f: T -> T, s: seq<T>, x: T)
    requires forall a, b :: le(f(a), f(b)) == le(a, b)
    ensures Insert(le, Map(f, s), f(x)) == Map(f, Insert(le, s, x))
  {
    if s != [] {
      var n := |s| - 1;
      assert Map(f, s)[..n] == Map(f, s[..n]);
      InsertMap(le, f, s[..n], x);
    }
  }

  // ---------- what does not depend on the order ----------

  function Without<T>(s: seq<T>, k: nat): (r: seq<T>)
    requires k < |s|
    ensures |r| == |s| - 1 && multiset(s) == multiset(r) + multiset{s[k]}
  {
    assert s == s[..k] + ([s[k]] + s[k + 1..]);
    s[..k] + s[k + 1..]
  }

  /** A permutation without its last element, and the place of that element in the other list. */
  lemma RemoveLast<T>(a: seq<T>, b: seq<T>) returns (k: nat)
    requires multiset(a) == multiset(b) && a != []
    ensures k < |b| && b[k] == a[|a| - 1] && multiset(a[..|a| - 1]) == multiset(Without(b, k))
  {
    SameMembers(a, b);
    var n := |a| - 1;
    assert a[n] in a;
    k :| 0 <= k < |b| && b[k] == a[n];
    assert a == a[..n] + [a[n]];
    assert multiset(a[..n]) == multiset(a) - multiset{a[n]};
    assert multiset(Without(b, k)) == multiset(b) - multiset{b[k]};
  }

  lemma MapWithout<T, U>(f: T -> U, s: seq<T>, k: nat)
    requires k < |s|
    ensures multiset(Map(f, s)) == multiset(Map(f, Without(s, k))) + multiset{f(s[k])}
  {
    assert Without(Map(f, s), k) == Map(f, Without(s, k));
  }

  lemma {:induction false} MapPermutes<T, U>(f: T -> U, a: seq<T>, b: seq<T>)
    requires multiset(a) == multiset(b)
    ensures multiset(Map(f, a)) == multiset(Map(f, b))
  {
    SameMembers(a, b);
    if a != [] {
      var n := |a| - 1;
      var k := RemoveLast(a, b);
      MapPermutes(f, a[..n], Without(b, k));
      MapWithout(f, b, k);
      assert Map(f, a) == Map(f, a[..n]) + [f(a[n])];
    }
  }

  function Sum<T>(f: T -> int, s: seq<T>): int {
    if s == [] then 0 else Sum(f, s[..|s| - 1]) + f(s[|s| - 1])
  }

  lemma {:induction false} SumWithout<T>(f: T -> int, s: seq<T>, k: nat)
    requires k < |s|
    ensures Sum(f, s) == Sum(f, Without(s, k)) + f(s[k])
  {
    var n := |s| - 1;
    if k == n {
      assert Without(s, k) == s[..n];
    } else {
      SumWithout(f, s[..n], k);
      assert Without(s, k)[..n - 1] == Without(s[..n], k);
    }
  }

  /** A sum does not depend on the order of its terms. */
  lemma {:induction false} SumPermutes<T>(f: T -> int, a: seq<T>, b: seq<T>)
    requires multiset(a) == multiset(b)
    ensures Sum(f, a) == Sum(f, b)
  {
    SameMembers(a, b);
    if a != [] {
      var n := |a| - 1;
      var k := RemoveLast(a, b);
      SumPermutes(f, a[..n], Without(b, k));
      SumWithout(f, b, k);
    }
  }

  lemma {:induction false} DistinctCounts<T>(s: seq<T>)
    ensures Distinct(s) <==> forall x :: multiset(s)[x] <= 1
  {
    if s != [] {
      var n := |s| - 1;
      DistinctCounts(s[..n]);
      assert s == s[..n] + [s[n]];
      assert Distinct(s) <==> Distinct(s[..n]) && s[n] !in s[..n];
      if forall x :: multiset(s)[x] <= 1 {
        assert forall x :: multiset(s[..n])[x] <= multiset(s)[x];
        assert multiset(s)[s[n]] == multiset(s[..n])[s[n]] + 1;
      }
      if Distinct(s) {
        forall x ensures multiset(s)[x] <= 1 {
          assert multiset(s)[x] == multiset(s[..n])[x] + if x == s[n] then 1 else 0;
        }
      }
    }
  }

  lemma DistinctPermutes<T>(a: seq<T>, b: seq<T>)
    requires multiset(a) == multiset(b)
    ensures Distinct(a) <==> Distinct(b)
  {
    DistinctCounts(a);
    DistinctCounts(b);
  }
}
