/** Lists of question ids: membership, distinctness and `sorted`. */
module Ids {
  import Text

  function Members(ids: seq<string>): set<string> {
    set i | 0 <= i < |ids| :: ids[i]
  }

  lemma NoMembers(ids: seq<string>)
    ensures Members(ids) == {} <==> ids == []
  {
    if ids != [] {
      assert ids[0] in Members(ids);
    }
  }

  predicate Distinct(ids: seq<string>) {
    forall i, j :: 0 <= i < j < |ids| ==> ids[i] != ids[j]
  }

  /** `sorted(ids)`. */
  method SortedIds(ids: set<string>) returns (r: seq<string>)
    ensures Distinct(r) && (forall id :: id in r <==> id in ids)
    ensures Text.SortedBy(r, Text.LexLe)
  {
    var rest, listed := ids, [];
    while rest != {}
      invariant rest <= ids && Distinct(listed)
      invariant forall id :: id in listed <==> id in ids - rest
      decreases rest
    {
      var id :| id in rest;
      assert id !in listed;
      assert forall i :: 0 <= i < |listed| ==> listed[i] != id;
      listed := listed + [id];
      rest := rest - {id};
    }
    r := Text.Sort(listed, Text.LexLe);
    SortIds(listed);
  }

  lemma SortIds(listed: seq<string>)
    requires Distinct(listed)
    ensures var r := Text.Sort(listed, Text.LexLe);
            && Distinct(r) && (forall id :: id in r <==> id in listed)
            && Text.SortedBy(r, Text.LexLe)
  {
    var r := Text.Sort(listed, Text.LexLe);
    forall a, b
      ensures Text.LexLe(a, b) || Text.LexLe(b, a)
    {
      Text.LexTotal(a, b);
    }
    forall a, b, c | Text.LexLe(a, b) && Text.LexLe(b, c)
      ensures Text.LexLe(a, c)
    {
      Text.LexTransitive(a, b, c);
    }
    Text.SortSorted(listed, Text.LexLe);
    Text.SortPermutes(listed, Text.LexLe);
    forall id
      ensures id in r <==> id in listed
    {
      Text.SortMembers(listed, Text.LexLe, id);
    }
    DistinctByCount(listed, r);
  }

  lemma DistinctByCount(a: seq<string>, b: seq<string>)
    requires Distinct(a) && multiset(a) == multiset(b)
    ensures Distinct(b)
  {
    forall i, j | 0 <= i < j < |b|
      ensures b[i] != b[j]
    {
      if b[i] == b[j] {
        CountTwice(b, i, j);
        CountOnce(a, b[i]);
      }
    }
  }

  lemma {:induction false} CountOnce(a: seq<string>, x: string)
    requires Distinct(a)
    ensures multiset(a)[x] <= 1
    ensures x !in a ==> multiset(a)[x] == 0
  {
    if |a| > 0 {
      var n := |a| - 1;
      CountOnce(a[..n], x);
      assert a == a[..n] + [a[n]];
    }
  }

  lemma CountTwice(b: seq<string>, i: nat, j: nat)
    requires i < j < |b| && b[i] == b[j]
    ensures multiset(b)[b[i]] >= 2
  {
    assert b == b[..j] + [b[j]] + b[j + 1..];
    assert b[i] in b[..j];
  }

  lemma NextMember(ids: seq<string>, i: nat)
    requires Distinct(ids) && i < |ids|
    ensures Members(ids[..i + 1]) == Members(ids[..i]) + {ids[i]} <= Members(ids)
    ensures ids[i] !in Members(ids[..i])
  {
  }

  /** Distinct lists of the same ids are permutations of each other. */
  lemma {:induction false} SameMembersSameBag(a: seq<string>, b: seq<string>)
    requires Distinct(a) && Distinct(b) && forall x :: x in a <==> x in b
    ensures multiset(a) == multiset(b)
  {
    forall x: string
      ensures multiset(a)[x] == multiset(b)[x]
    {
      CountOnce(a, x);
      CountOnce(b, x);
      assert x in a <==> x in multiset(a);
      assert x in b <==> x in multiset(b);
    }
  }

  lemma DistinctConcat(a: seq<string>, b: seq<string>)
    requires Distinct(a) && Distinct(b) && forall x :: x in a ==> x !in b
    ensures Distinct(a + b)
    ensures multiset(a + b) == multiset(a) + multiset(b)
  {
    forall i, j | 0 <= i < j < |a + b|
      ensures (a + b)[i] != (a + b)[j]
    {
      if i < |a| <= j {
        assert a[i] in a && b[j - |a|] in b;
      }
    }
  }
}
