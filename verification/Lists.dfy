/** Lists up to order: mapping, filtering and summing permutations, and the uniqueness of a sorted list. */
module Lists {
  import opened Text

  function Map<T, U>(f: T -> U, s: seq<T>): (r: seq<U>)
    ensures |r| == |s|
  {
    seq(|s|, i requires 0 <= i < |s| => f(s[i]))
  }

  function Filter<T>(p: T -> bool, s: seq<T>): (r: seq<T>)
    ensures |r| <= |s|
  {
    if |s| == 0 then []
    else Filter(p, s[..|s| - 1]) + if p(s[|s| - 1]) then [s[|s| - 1]] else []
  }

  function Sum(s: seq<real>): real {
    if |s| == 0 then 0.0 else Sum(s[..|s| - 1]) + s[|s| - 1]
  }

  lemma RemoveAt<T>(s: seq<T>, k: nat)
    requires k < |s|
    ensures multiset(s) == multiset(s[..k] + s[k + 1..]) + multiset{s[k]}
  {
    assert s == s[..k] + [s[k]] + s[k + 1..];
  }

  lemma Cancel<T>(a: multiset<T>, b: multiset<T>, x: T)
    requires a + multiset{x} == b + multiset{x}
    ensures a == b
  {
    assert a == (a + multiset{x}) - multiset{x};
    assert b == (b + multiset{x}) - multiset{x};
  }

  lemma SameLength<T>(a: seq<T>, b: seq<T>)
    requires multiset(a) == multiset(b)
    ensures |a| == |b|
  {
    assert |multiset(a)| == |a| && |multiset(b)| == |b|;
  }

  lemma MapWithout<T, U>(f: T -> U, s: seq<T>, k: nat)
    requires k < |s|
    ensures multiset(Map(f, s)) == multiset(Map(f, s[..k] + s[k + 1..])) + multiset{f(s[k])}
  {
    var all := Map(f, s);
    RemoveAt(all, k);
    assert Map(f, s[..k] + s[k + 1..]) == all[..k] + all[k + 1..];
  }

  /** Where a permutation keeps the last element of the other list. */
  lemma FindLast<T>(a: seq<T>, b: seq<T>) returns (k: nat)
    requires multiset(a) == multiset(b) && |a| > 0
    ensures k < |b| && b[k] == a[|a| - 1]
    ensures multiset(a[..|a| - 1]) == multiset(b[..k] + b[k + 1..])
  {
    var n := |a| - 1;
    assert a[n] in multiset(b);
    k :| 0 <= k < |b| && b[k] == a[n];
    RemoveAt(a, n);
    RemoveAt(b, k);
    assert a[..n] + a[n + 1..] == a[..n];
    Cancel(multiset(a[..n]), multiset(b[..k] + b[k + 1..]), a[n]);
  }

  /** Mapping permutations gives permutations. */
  lemma {:induction false} MapPermutes<T, U>(f: T -> U, a: seq<T>, b: seq<T>)
    requires multiset(a) == multiset(b)
    ensures multiset(Map(f, a)) == multiset(Map(f, b))
    decreases |a|
  {
    SameLength(a, b);
    if |a| > 0 {
      var n := |a| - 1;
      var k := FindLast(a, b);
      MapPermutes(f, a[..n], b[..k] + b[k + 1..]);
      MapWithout(f, b, k);
      MapWithout(f, a, n);
      assert a[..n] + a[n + 1..] == a[..n];
    }
  }

  lemma {:induction false} FilterConcat<T>(p: T -> bool, a: seq<T>, b: seq<T>)
    ensures Filter(p, a + b) == Filter(p, a) + Filter(p, b)
  {
    if |b| == 0 {
      assert a + b == a;
    } else {
      var n := |b| - 1;
      assert (a + b)[..|a + b| - 1] == a + b[..n];
      FilterConcat(p, a, b[..n]);
    }
  }

  lemma FilterOne<T>(p: T -> bool, x: T)
    ensures Filter(p, [x]) == if p(x) then [x] else []
  {
    assert [x][..0] == [];
  }

  lemma BagAround<T>(a: seq<T>, x: seq<T>, b: seq<T>)
    ensures multiset(a + x + b) == multiset(a + b) + multiset(x)
  {
  }

  lemma {:induction false} FilterAround<T>(p: T -> bool, before: seq<T>, x: T, after: seq<T>)
    ensures multiset(Filter(p, before + [x] + after))
         == multiset(Filter(p, before + after)) + multiset(if p(x) then [x] else [])
  {
    FilterConcat(p, before + [x], after);
    FilterConcat(p, before, [x]);
    FilterConcat(p, before, after);
    FilterOne(p, x);
    BagAround(Filter(p, before), if p(x) then [x] else [], Filter(p, after));
  }

  lemma {:induction false} FilterWithout<T>(p: T -> bool, s: seq<T>, k: nat)
    requires k < |s|
    ensures multiset(Filter(p, s))
         == multiset(Filter(p, s[..k] + s[k + 1..])) + multiset(if p(s[k]) then [s[k]] else [])
  {
    var before, x, after := s[..k], s[k], s[k + 1..];
    FilterAround(p, before, x, after);
    assert before + [x] + after == s;
  }

  /** Filtering permutations gives permutations. */
  lemma {:induction false} FilterPermutes<T>(p: T -> bool, a: seq<T>, b: seq<T>)
    requires multiset(a) == multiset(b)
    ensures multiset(Filter(p, a)) == multiset(Filter(p, b))
    ensures |Filter(p, a)| == |Filter(p, b)|
    decreases |a|
  {
    SameLength(a, b);
    if |a| > 0 {
      var k := FindLast(a, b);
      FilterPermutes(p, a[..|a| - 1], b[..k] + b[k + 1..]);
      FilterWithout(p, b, k);
    }
    SameLength(Filter(p, a), Filter(p, b));
  }

  lemma {:induction false} SumWithout(s: seq<real>, k: nat)
    requires k < |s|
    ensures Sum(s) == Sum(s[..k] + s[k + 1..]) + s[k]
  {
    var n := |s| - 1;
    var rest := s[..k] + s[k + 1..];
    if k == n {
      assert rest == s[..n];
    } else {
      SumWithout(s[..n], k);
      assert rest[..|rest| - 1] == s[..n][..k] + s[..n][k + 1..];
    }
  }

  /** Permutations have one sum. */
  lemma {:induction false} SumPermutes(a: seq<real>, b: seq<real>)
    requires multiset(a) == multiset(b)
    ensures Sum(a) == Sum(b)
    decreases |a|
  {
    SameLength(a, b);
    if |a| > 0 {
      var k := FindLast(a, b);
      SumPermutes(a[..|a| - 1], b[..k] + b[k + 1..]);
      SumWithout(b, k);
    }
  }

  lemma {:induction false} InsertIsStable<T(!new)>(p: T -> bool, x: T, s: seq<T>, le: (T, T) -> bool)
    requires forall a, b :: p(a) && p(b) ==> le(a, b)
    ensures Filter(p, Insert(x, s, le)) == Filter(p, s) + if p(x) then [x] else []
  {
    FilterOne(p, x);
    if |s| > 0 {
      var n := |s| - 1;
      if le(s[n], x) {
        FilterConcat(p, s, [x]);
      } else {
        InsertIsStable(p, x, s[..n], le);
        FilterConcat(p, Insert(x, s[..n], le), [s[n]]);
        FilterOne(p, s[n]);
      }
    }
  }

  /** Elements that tie keep their order. */
  lemma {:induction false} SortIsStable<T(!new)>(p: T -> bool, xs: seq<T>, le: (T, T) -> bool)
    requires forall a, b :: p(a) && p(b) ==> le(a, b)
    ensures Filter(p, Sort(xs, le)) == Filter(p, xs)
  {
    if |xs| > 0 {
      var n := |xs| - 1;
      SortIsStable(p, xs[..n], le);
      InsertIsStable(p, xs[n], Sort(xs[..n], le), le);
    }
  }

  ghost predicate Order<T(!new)>(le: (T, T) -> bool) {
    (forall x :: le(x, x)) && (forall x, y :: le(x, y) && le(y, x) ==> x == y)
  }

  /** Sorting leaves no choice where different elements never tie. */
  lemma {:induction false} SortedIsUnique<T(!new)>(a: seq<T>, b: seq<T>, le: (T, T) -> bool)
    requires Order(le) && SortedBy(a, le) && SortedBy(b, le) && multiset(a) == multiset(b)
    ensures a == b
    decreases |a|
  {
    SameLength(a, b);
    if |a| > 0 {
      var n := |a| - 1;
      SameLast(a, b, le);
      assert a == a[..n] + [a[n]] && b == b[..n] + [b[n]];
      Cancel(multiset(a[..n]), multiset(b[..n]), a[n]);
      SortedIsUnique(a[..n], b[..n], le);
    }
  }

  lemma LastIsGreatest<T(!new)>(a: seq<T>, x: T, le: (T, T) -> bool)
    requires Order(le) && SortedBy(a, le) && x in a
    ensures le(x, a[|a| - 1])
  {
    var i :| 0 <= i < |a| && a[i] == x;
  }

  lemma SameLast<T(!new)>(a: seq<T>, b: seq<T>, le: (T, T) -> bool)
    requires Order(le) && SortedBy(a, le) && SortedBy(b, le) && multiset(a) == multiset(b) && |a| > 0 && |b| > 0
    ensures a[|a| - 1] == b[|b| - 1]
  {
    assert a[|a| - 1] in multiset(b) && b[|b| - 1] in multiset(a);
    LastIsGreatest(a, b[|b| - 1], le);
    LastIsGreatest(b, a[|a| - 1], le);
  }
}
