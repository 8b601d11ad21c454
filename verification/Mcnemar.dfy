/** The exact two-sided McNemar p-value of a paired comparison, in exact rationals, against its definition
    by counting sign vectors. */
module Mcnemar {

  datatype Result<+T> = Ok(value: T) | ValueError

  // ---------- the code ----------

  /** `math.comb(n, k)`, by Pascal's rule. */
  function Comb(n: nat, k: nat): nat {
    if k == 0 then 1 else if n == 0 then 0 else Comb(n - 1, k - 1) + Comb(n - 1, k)
  }

  /** `sum(math.comb(n, i) for i in range(k + 1))`. */
  function TailSum(n: nat, k: nat): nat {
    Comb(n, k) + (if k == 0 then 0 else TailSum(n, k - 1))
  }

  function Pow2(n: nat): (p: nat)
    ensures p > 0
  {
    if n == 0 then 1 else 2 * Pow2(n - 1)
  }

  function Min(a: nat, b: nat): nat {
    if a < b then a else b
  }

  /** The p-value for non-negative discordant counts; the division is exact. */
  function PValue(b: nat, c: nat): real {
    var n := b + c;
    if n == 0 then 1.0
    else
      var tail := TailSum(n, Min(b, c)) as real / Pow2(n) as real;
      if 2.0 * tail < 1.0 then 2.0 * tail else 1.0
  }

  function ExactMcnemarP(b: int, c: int): Result<real> {
    if b < 0 || c < 0 then ValueError else Ok(PValue(b, c))
  }

  // ---------- the definition ----------

  /** All ways the n discordant pairs can fall, true for a gained flip. */
  function Vectors(n: nat): set<seq<bool>> {
    if n == 0 then {[]}
    else Prefixed(false, Vectors(n - 1)) + Prefixed(true, Vectors(n - 1))
  }

  function Image<T, U>(s: set<T>, f: T -> U): set<U> {
    set x | x in s :: f(x)
  }

  function Cons(b: bool): seq<bool> -> seq<bool> {
    (v: seq<bool>) => [b] + v
  }

  function Prefixed(b: bool, s: set<seq<bool>>): set<seq<bool>> {
    Image(s, Cons(b))
  }

  function Ones(v: seq<bool>): (k: nat)
    ensures k <= |v|
  {
    if |v| == 0 then 0 else (if v[0] then 1 else 0) + Ones(v[1..])
  }

  function Abs(x: int): nat {
    if x < 0 then -x else x
  }

  /** Gained minus lost flips, in absolute value. */
  function Discrepancy(v: seq<bool>): nat {
    Abs(2 * Ones(v) - |v|)
  }

  /** The vectors at least as lopsided as the observed one. */
  function Extreme(n: nat, d: nat): set<seq<bool>> {
    set v | v in Vectors(n) && Discrepancy(v) >= d
  }

  // ---------- counting ----------

  lemma InPrefixed(b: bool, s: set<seq<bool>>, v: seq<bool>)
    ensures v in Prefixed(b, s) <==> |v| > 0 && v[0] == b && v[1..] in s
  {
    if v in Prefixed(b, s) {
      var w :| w in s && v == Cons(b)(w);
      assert v[1..] == w;
    } else if |v| > 0 && v[0] == b {
      assert v == Cons(b)(v[1..]);
    }
  }

  lemma {:induction false} InVectors(n: nat, v: seq<bool>)
    ensures v in Vectors(n) <==> |v| == n
  {
    if n > 0 {
      InPrefixed(false, Vectors(n - 1), v);
      InPrefixed(true, Vectors(n - 1), v);
      if |v| > 0 {
        InVectors(n - 1, v[1..]);
      }
    }
  }

  lemma {:induction false} ImageSize<T, U>(s: set<T>, f: T -> U)
    requires forall x, y :: x in s && y in s && f(x) == f(y) ==> x == y
    ensures |Image(s, f)| == |s|
  {
    if s != {} {
      var x :| x in s;
      var rest := s - {x};
      ImageSize(rest, f);
      assert Image(s, f) == Image(rest, f) + {f(x)};
    }
  }

  lemma PrefixedSize(b: bool, s: set<seq<bool>>)
    ensures |Prefixed(b, s)| == |s|
  {
    forall x, y | x in s && y in s && Cons(b)(x) == Cons(b)(y)
      ensures x == y
    {
      assert ([b] + x)[1..] == x && ([b] + y)[1..] == y;
    }
    ImageSize(s, Cons(b));
  }

  lemma PrefixedApart(s: set<seq<bool>>, t: set<seq<bool>>)
    ensures Prefixed(false, s) * Prefixed(true, t) == {}
    ensures |Prefixed(false, s) + Prefixed(true, t)| == |s| + |t|
  {
    forall v
      ensures v !in Prefixed(false, s) * Prefixed(true, t)
    {
      InPrefixed(false, s, v);
      InPrefixed(true, t, v);
    }
    PrefixedSize(false, s);
    PrefixedSize(true, t);
  }

  lemma {:induction false} VectorCount(n: nat)
    ensures |Vectors(n)| == Pow2(n)
  {
    if n > 0 {
      VectorCount(n - 1);
      PrefixedApart(Vectors(n - 1), Vectors(n - 1));
    }
  }

  function WithOnes(n: nat, k: nat): set<seq<bool>> {
    set v | v in Vectors(n) && Ones(v) == k
  }

  lemma WithOnesSplits(n: nat, k: nat)
    requires n > 0
    ensures WithOnes(n, k) == Prefixed(false, WithOnes(n - 1, k)) + Prefixed(true, LessOne(n - 1, k))
  {
    forall v
      ensures v in WithOnes(n, k) <==> v in Prefixed(false, WithOnes(n - 1, k)) + Prefixed(true, LessOne(n - 1, k))
    {
      InPrefixed(false, WithOnes(n - 1, k), v);
      InPrefixed(true, LessOne(n - 1, k), v);
      InVectors(n, v);
      if |v| > 0 {
        InVectors(n - 1, v[1..]);
      }
    }
  }

  function LessOne(n: nat, k: nat): set<seq<bool>> {
    if k == 0 then {} else WithOnes(n, k - 1)
  }

  lemma WithOnesStep(n: nat, k: nat)
    requires n > 0
    ensures |WithOnes(n, k)| == |WithOnes(n - 1, k)| + |LessOne(n - 1, k)|
  {
    WithOnesSplits(n, k);
    PrefixedApart(WithOnes(n - 1, k), LessOne(n - 1, k));
  }

  lemma WithOnesBase(k: nat)
    ensures |WithOnes(0, k)| == Comb(0, k)
  {
    assert WithOnes(0, k) == if k == 0 then {[]} else {};
  }

  /** The binomial coefficient counts the vectors with exactly k gained flips. */
  lemma {:induction false} CombCounts(n: nat, k: nat)
    ensures |WithOnes(n, k)| == Comb(n, k)
  {
    if n == 0 {
      WithOnesBase(k);
    } else {
      WithOnesStep(n, k);
      CombCounts(n - 1, k);
      if k == 0 {
        CombZero(n - 1);
      } else {
        CombCounts(n - 1, k - 1);
      }
    }
  }

  lemma CombZero(n: nat)
    ensures Comb(n, 0) == 1
  {
  }

  function AtMost(n: nat, k: nat): set<seq<bool>> {
    set v | v in Vectors(n) && Ones(v) <= k
  }

  function AtLeast(n: nat, k: int): set<seq<bool>> {
    set v | v in Vectors(n) && Ones(v) >= k
  }

  /** The code's tail sum counts one tail. */
  lemma {:induction false} TailCounts(n: nat, k: nat)
    ensures |AtMost(n, k)| == TailSum(n, k)
  {
    CombCounts(n, k);
    if k == 0 {
      assert AtMost(n, 0) == WithOnes(n, 0);
    } else {
      TailCounts(n, k - 1);
      assert AtMost(n, k) == AtMost(n, k - 1) + WithOnes(n, k);
      assert AtMost(n, k - 1) * WithOnes(n, k) == {};
    }
  }

  function Flip(v: seq<bool>): (r: seq<bool>)
    ensures |r| == |v|
  {
    seq(|v|, i requires 0 <= i < |v| => !v[i])
  }

  lemma {:induction false} FlipOnes(v: seq<bool>)
    ensures Ones(Flip(v)) == |v| - Ones(v)
  {
    if |v| > 0 {
      FlipOnes(v[1..]);
      assert Flip(v)[1..] == Flip(v[1..]);
    }
  }

  lemma FlipTwice(v: seq<bool>)
    ensures Flip(Flip(v)) == v
  {
  }

  lemma InFlipped(n: nat, k: nat, v: seq<bool>)
    ensures v in AtLeast(n, n - k) <==> v in Image(AtMost(n, k), Flip)
  {
    InVectors(n, v);
    InVectors(n, Flip(v));
    FlipOnes(v);
    FlipTwice(v);
    if v in AtLeast(n, n - k) {
      assert Flip(v) in AtMost(n, k) && v == Flip(Flip(v));
    } else if v in Image(AtMost(n, k), Flip) {
      var w :| w in AtMost(n, k) && v == Flip(w);
      FlipTwice(w);
    }
  }

  /** The two tails have the same size: exchanging gained and lost maps one onto the other. */
  lemma TailsAreSymmetric(n: nat, k: nat)
    ensures |AtLeast(n, n - k)| == |AtMost(n, k)|
  {
    forall x, y | x in AtMost(n, k) && y in AtMost(n, k) && Flip(x) == Flip(y)
      ensures x == y
    {
      FlipTwice(x);
      FlipTwice(y);
    }
    ImageSize(AtMost(n, k), Flip);
    forall v
      ensures v in AtLeast(n, n - k) <==> v in Image(AtMost(n, k), Flip)
    {
      InFlipped(n, k, v);
    }
    assert AtLeast(n, n - k) == Image(AtMost(n, k), Flip);
  }

  lemma ExtremeIsBothTails(b: nat, c: nat, v: seq<bool>)
    ensures v in Extreme(b + c, Abs(b - c)) <==>
            v in AtMost(b + c, Min(b, c)) || v in AtLeast(b + c, b + c - Min(b, c))
    ensures b != c ==> !(v in AtMost(b + c, Min(b, c)) && v in AtLeast(b + c, b + c - Min(b, c)))
  {
    InVectors(b + c, v);
  }

  lemma UnionSize<T>(u: set<T>, a: set<T>, b: set<T>)
    requires forall x :: x in u <==> x in a || x in b
    ensures |u| <= |a| + |b|
    ensures (forall x :: x in a ==> x !in b) ==> |u| == |a| + |b|
  {
    assert u == a + b;
    if forall x :: x in a ==> x !in b {
      assert a * b == {};
    }
  }

  lemma BothTailsSize(b: nat, c: nat)
    ensures |Extreme(b + c, Abs(b - c))| <= |AtMost(b + c, Min(b, c))| + |AtLeast(b + c, b + c - Min(b, c))|
    ensures b != c ==> |Extreme(b + c, Abs(b - c))| == |AtMost(b + c, Min(b, c))| + |AtLeast(b + c, b + c - Min(b, c))|
  {
    var extreme, low := Extreme(b + c, Abs(b - c)), AtMost(b + c, Min(b, c));
    var high := AtLeast(b + c, b + c - Min(b, c));
    forall v
      ensures v in extreme <==> v in low || v in high
      ensures b != c ==> !(v in low && v in high)
    {
      ExtremeIsBothTails(b, c, v);
    }
    UnionSize(extreme, low, high);
  }

  lemma ExtremeAmongAll(n: nat, d: nat)
    ensures |Extreme(n, d)| <= Pow2(n)
  {
    SubsetSize(Extreme(n, d), Vectors(n));
    VectorCount(n);
  }

  lemma UnequalTails(b: nat, c: nat)
    requires b != c
    ensures |Extreme(b + c, Abs(b - c))| == 2 * TailSum(b + c, Min(b, c))
  {
    BothTailsSize(b, c);
    TailCounts(b + c, Min(b, c));
    TailsAreSymmetric(b + c, Min(b, c));
  }

  lemma EqualTails(b: nat)
    ensures |Extreme(b + b, 0)| == Pow2(b + b) <= 2 * TailSum(b + b, b)
  {
    EveryVectorIsExtreme(b + b, 0);
    BothTailsSize(b, b);
    TailCounts(b + b, b);
    TailsAreSymmetric(b + b, b);
  }

  lemma SubsetSize<T>(a: set<T>, b: set<T>)
    requires a <= b
    ensures |a| <= |b|
    ensures a != b ==> |a| < |b|
  {
    assert b == a + (b - a);
  }

  // ---------- main results ----------

  /** The computed p-value is the fraction of the 2^(b+c) equally likely sign vectors that are at least as
      lopsided as the observed one, so doubling one tail and capping at 1 is the two-sided exact test. */
  lemma PValueIsFraction(b: nat, c: nat)
    ensures PValue(b, c) == |Extreme(b + c, Abs(b - c))| as real / Pow2(b + c) as real
  {
    var n := b + c;
    Quotients(TailSum(n, Min(b, c)), Pow2(n));
    if b == c {
      EqualTails(b);
    } else {
      UnequalTails(b, c);
      ExtremeAmongAll(n, Abs(b - c));
    }
  }

  lemma ScaleOrder(a: real, b: real, m: real)
    requires m > 0.0
    ensures a < b <==> a * m < b * m
    ensures a == b <==> a * m == b * m
  {
  }

  lemma Quotients(tail: nat, all: nat)
    requires all > 0
    ensures 2.0 * (tail as real / all as real) == (2 * tail) as real / all as real
    ensures 2.0 * (tail as real / all as real) < 1.0 <==> 2 * tail < all
    ensures all as real / all as real == 1.0
  {
    var x := tail as real / all as real;
    assert x * all as real == tail as real;
    assert (2.0 * x) * all as real == (2 * tail) as real;
    ScaleOrder(2.0 * x, 1.0, all as real);
  }

  lemma FractionOrder(x: nat, y: nat, all: nat)
    requires all > 0
    ensures x < y <==> x as real / all as real < y as real / all as real
    ensures x == all <==> x as real / all as real == 1.0
    ensures x > 0 <==> x as real / all as real > 0.0
  {
    var fx, fy := x as real / all as real, y as real / all as real;
    assert fx * all as real == x as real && fy * all as real == y as real;
    ScaleOrder(fx, fy, all as real);
    ScaleOrder(fx, 1.0, all as real);
    ScaleOrder(0.0, fx, all as real);
  }

  lemma PValueIsSymmetric(b: nat, c: nat)
    ensures PValue(b, c) == PValue(c, b)
  {
    PValueIsFraction(b, c);
    PValueIsFraction(c, b);
  }

  /** A vector with exactly k gained flips. */
  function Sample(n: nat, k: nat): (v: seq<bool>)
    requires k <= n
    ensures |v| == n && Ones(v) == k
  {
    if n == 0 then [] else if k > 0 then [true] + Sample(n - 1, k - 1) else [false] + Sample(n - 1, 0)
  }

  lemma ObservedIsExtreme(b: nat, c: nat)
    ensures Sample(b + c, b) in Extreme(b + c, Abs(b - c))
    ensures Discrepancy(Sample(b + c, b)) == Abs(b - c)
  {
    InVectors(b + c, Sample(b + c, b));
  }

  lemma EveryVectorIsExtreme(n: nat, d: nat)
    requires d <= 1 && n % 2 == d
    ensures |Extreme(n, d)| == Pow2(n)
  {
    forall v: seq<bool> | v in Vectors(n)
      ensures Discrepancy(v) >= d
    {
      InVectors(n, v);
      assert (2 * Ones(v) - n) % 2 == d % 2;
    }
    EqualSize(Extreme(n, d), Vectors(n));
    VectorCount(n);
  }

  lemma EqualSize<T>(a: set<T>, b: set<T>)
    requires forall x :: x in a <==> x in b
    ensures |a| == |b|
  {
    assert a == b;
  }

  lemma MiddleIsNotExtreme(n: nat, d: nat)
    requires d >= 2
    ensures |Extreme(n, d)| < Pow2(n)
  {
    var middle := Sample(n, n / 2);
    InVectors(n, middle);
    assert Discrepancy(middle) <= 1;
    assert middle !in Extreme(n, d);
    SubsetSize(Extreme(n, d), Vectors(n));
    VectorCount(n);
  }

  lemma ExtremeIsInhabited(b: nat, c: nat)
    ensures |Extreme(b + c, Abs(b - c))| > 0
  {
    ObservedIsExtreme(b, c);
  }

  /** The p-value is positive, at most 1, and exactly 1 when the two flip counts differ by at most one. */
  lemma PValueRange(b: nat, c: nat)
    ensures 0.0 < PValue(b, c) <= 1.0
    ensures PValue(b, c) == 1.0 <==> Abs(b - c) <= 1
  {
    var n, d := b + c, Abs(b - c);
    PValueIsFraction(b, c);
    ExtremeIsInhabited(b, c);
    ExtremeAmongAll(n, d);
    if d <= 1 {
      EveryVectorIsExtreme(n, d);
    } else {
      MiddleIsNotExtreme(n, d);
    }
    FractionOrder(|Extreme(n, d)|, Pow2(n), Pow2(n));
    FractionOrder(Pow2(n), Pow2(n), Pow2(n));
  }

  /** For a fixed number of discordant pairs, a more lopsided split has a strictly smaller p-value. */
  lemma PValueDecreases(b: nat, c: nat, b': nat, c': nat)
    requires b + c == b' + c' && Abs(b - c) < Abs(b' - c')
    ensures PValue(b', c') < PValue(b, c)
  {
    var n := b + c;
    PValueIsFraction(b, c);
    PValueIsFraction(b', c');
    ObservedIsExtreme(b, c);
    var wide, narrow := Extreme(n, Abs(b - c)), Extreme(n, Abs(b' - c'));
    assert Sample(n, b) !in narrow;
    SubsetSize(narrow, wide);
    FractionOrder(|narrow|, |wide|, Pow2(n));
  }
}
