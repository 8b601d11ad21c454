/** What the selection spends, what it leaves out, and what it guarantees. */
module PackerBudget {
  import opened Text
  import opened Anchor
  import opened AnchorWindow
  import opened Wrappers
  import opened Packer
  import Lists

  ghost predicate Positive(cost: Entry -> int) {
    forall e :: cost(e) > 0
  }

  function Total(cost: Entry -> int, es: seq<Entry>): int {
    if |es| == 0 then 0 else Total(cost, es[..|es| - 1]) + cost(es[|es| - 1])
  }

  lemma TotalAppend(cost: Entry -> int, es: seq<Entry>, e: Entry)
    ensures Total(cost, es + [e]) == Total(cost, es) + cost(e)
  {
    assert (es + [e])[..|es|] == es;
  }

  lemma {:induction false} TotalUpdate(cost: Entry -> int, es: seq<Entry>, i: nat, e: Entry)
    requires i < |es|
    ensures Total(cost, es[i := e]) == Total(cost, es) - cost(es[i]) + cost(e)
  {
    var n := |es| - 1;
    if i == n {
      assert es[i := e][..n] == es[..n];
    } else {
      assert es[i := e][..n] == es[..n][i := e];
      TotalUpdate(cost, es[..n], i, e);
    }
  }

  lemma {:induction false} TotalInsert(cost: Entry -> int, x: Entry, s: seq<Entry>, le: (Entry, Entry) -> bool)
    ensures Total(cost, Insert(x, s, le)) == Total(cost, s) + cost(x)
  {
    if |s| == 0 || le(s[|s| - 1], x) {
      assert Insert(x, s, le) == s + [x];
      TotalAppend(cost, s, x);
    } else {
      TotalInsert(cost, x, s[..|s| - 1], le);
      TotalAppend(cost, Insert(x, s[..|s| - 1], le), s[|s| - 1]);
    }
  }

  lemma {:induction false} TotalSort(cost: Entry -> int, s: seq<Entry>, le: (Entry, Entry) -> bool)
    ensures Total(cost, Sort(s, le)) == Total(cost, s)
  {
    if |s| > 0 {
      TotalSort(cost, s[..|s| - 1], le);
      TotalInsert(cost, s[|s| - 1], Sort(s[..|s| - 1], le), le);
    }
  }

  // ---------- exact accounting ----------

  /** Every phase keeps: `used` is the initial spend plus the cost of what is selected now, and stays
      within a budget it started within. */
  ghost predicate Balanced(cost: Entry -> int, budget: int, used0: int, p: Pack) {
    p.used == used0 + Total(cost, p.selected) && (used0 <= budget ==> p.used <= budget)
  }

  lemma {:induction false} AdmitKeepsBalance(q: Query, cs: seq<Candidate>, cost: Entry -> int, budget: int, used: int)
    requires Presentable(cs)
    ensures Balanced(cost, budget, used, AdmitAll(q, cs, cost, budget, used))
  {
    if |cs| > 0 {
      var n := |cs| - 1;
      AdmitKeepsBalance(q, cs[..n], cost, budget, used);
      TotalAppend(cost, AdmitAll(q, cs[..n], cost, budget, used).selected, Offer(q, cs[n]));
    }
  }

  lemma ExtendBalance(pd: Pending, cost: Entry -> int, budget: int, used: int, p: Pack)
    requires Shaped(p) && InRange(pd, p) && Balanced(cost, budget, used, p)
    ensures Balanced(cost, budget, used, Extend(pd, cost, budget, p))
  {
    TotalUpdate(cost, p.selected, pd.at, Grown(p.selected[pd.at], pd));
  }

  lemma ExtendKeepsBalance(cost: Entry -> int, budget: int, used: int, p: Pack)
    requires Shaped(p) && Balanced(cost, budget, used, p)
    ensures Balanced(cost, budget, used, ExtendAll(p.pending, cost, budget, p))
  {
    var inv := (r: Pack, k: nat) => Balanced(cost, budget, used, r);
    forall r, k: nat | inv(r, k) && Shaped(r) && r.pending == p.pending && k < |p.pending|
      ensures inv(Extend(p.pending[k], cost, budget, r), k + 1)
    {
      ExtendBalance(p.pending[k], cost, budget, used, r);
    }
    assert p.pending[0..] == p.pending;
    ExtendInduction(inv, 0, cost, budget, p);
  }

  lemma {:induction false} SpentIsTotal(entries: seq<Entry>, cost: Entry -> int, budget: int, used: int)
    ensures Spent(entries, cost, budget, used) == used + Total(cost, Taken(entries, cost, budget, used))
    ensures used <= budget ==> Spent(entries, cost, budget, used) <= budget
  {
    if |entries| > 0 {
      var n := |entries| - 1;
      SpentIsTotal(entries[..n], cost, budget, used);
      TotalAppend(cost, Taken(entries[..n], cost, budget, used), entries[n]);
    }
  }

  lemma {:induction false} TotalConcat(cost: Entry -> int, a: seq<Entry>, b: seq<Entry>)
    ensures Total(cost, a + b) == Total(cost, a) + Total(cost, b)
  {
    if |b| == 0 {
      assert a + b == a;
    } else {
      var n := |b| - 1;
      assert (a + b)[..|a + b| - 1] == a + b[..n];
      TotalConcat(cost, a, b[..n]);
    }
  }

  lemma PackKeepsBalance(q: Query, cs: seq<Candidate>, cost: Entry -> int, budget: int, used: int)
    requires Presentable(cs)
    ensures Balanced(cost, budget, used, PackAll(q, cs, cost, budget, used))
  {
    AdmitAllShaped(q, cs, cost, budget, used);
    AdmitKeepsBalance(q, cs, cost, budget, used);
    var admitted := AdmitAll(q, cs, cost, budget, used);
    ExtendKeepsBalance(cost, budget, used, admitted);
    var extended := ExtendAll(admitted.pending, cost, budget, admitted);
    var order := Sort(Remaining(extended.leftovers), ByFill);
    SpentIsTotal(order, cost, budget, extended.used);
    TotalConcat(cost, extended.selected, Taken(order, cost, budget, extended.used));
  }

  /** For any cost function, the running total is exactly the initial spend plus the cost of the returned
      entries, grown ones included, and never exceeds a budget it started within. */
  lemma AccountingIsExact(q: Query, sources: seq<Source>, cost: Entry -> int, budget: int, used: int)
    ensures Presentable(Collect(q, sources))
    ensures var spent := used + Total(cost, Select(q, sources, cost, budget, used));
            && spent == PackAll(q, Collect(q, sources), cost, budget, used).used
            && (used <= budget ==> spent <= budget)
  {
    CollectPresentable(q, sources);
    var cs := Collect(q, sources);
    PackKeepsBalance(q, cs, cost, budget, used);
    TotalSort(cost, PackAll(q, cs, cost, budget, used).selected, ByDate);
  }

  // ---------- nothing fits ----------

  lemma {:induction false} NothingAdmitted(q: Query, cs: seq<Candidate>, cost: Entry -> int, budget: int, used: int)
    requires Presentable(cs) && Positive(cost) && used > budget
    ensures var p := AdmitAll(q, cs, cost, budget, used); p.selected == [] && p.pending == [] && p.used == used
  {
    if |cs| > 0 {
      NothingAdmitted(q, cs[..|cs| - 1], cost, budget, used);
    }
  }

  lemma {:induction false} NothingTaken(entries: seq<Entry>, cost: Entry -> int, budget: int, used: int)
    requires Positive(cost) && used > budget
    ensures Taken(entries, cost, budget, used) == [] && Spent(entries, cost, budget, used) == used
  {
    if |entries| > 0 {
      NothingTaken(entries[..|entries| - 1], cost, budget, used);
    }
  }

  /** A budget already overspent yields no excerpt at all. */
  lemma OverspentSelectsNothing(q: Query, sources: seq<Source>, cost: Entry -> int, budget: int, used: int)
    requires Positive(cost) && used > budget
    ensures Select(q, sources, cost, budget, used) == []
  {
    CollectPresentable(q, sources);
    var cs := Collect(q, sources);
    NothingAdmitted(q, cs, cost, budget, used);
    AdmitAllShaped(q, cs, cost, budget, used);
    var admitted := AdmitAll(q, cs, cost, budget, used);
    NothingTaken(Sort(Remaining(admitted.leftovers), ByFill), cost, budget, used);
  }

  // ---------- the fill is greedy by priority and maximal ----------

  lemma {:induction false} TakenMembers(entries: seq<Entry>, cost: Entry -> int, budget: int, used: int)
    ensures forall e :: e in Taken(entries, cost, budget, used) ==> e in entries
  {
    if |entries| > 0 {
      TakenMembers(entries[..|entries| - 1], cost, budget, used);
    }
  }

  lemma {:induction false} TakenPrefix(entries: seq<Entry>, n: nat, cost: Entry -> int, budget: int, used: int)
    requires n <= |entries| && Positive(cost)
    ensures Spent(entries[..n], cost, budget, used) <= Spent(entries, cost, budget, used)
    ensures Taken(entries[..n], cost, budget, used) <= Taken(entries, cost, budget, used)
  {
    if n == |entries| {
      assert entries[..n] == entries;
    } else {
      var m := |entries| - 1;
      TakenPrefix(entries[..m], n, cost, budget, used);
      assert entries[..m][..n] == entries[..n];
    }
  }

  /** Entry i of the fill order is taken next, or it overflows already on top of the entries taken ahead of
      it, all of which precede it in the order, and therefore still overflows at the end. */
  lemma FillIsGreedy(entries: seq<Entry>, i: nat, cost: Entry -> int, budget: int, used: int)
    requires i < |entries| && Positive(cost)
    ensures var ahead := Taken(entries[..i], cost, budget, used);
            var all := Taken(entries, cost, budget, used);
            && ahead <= all
            && (forall e :: e in ahead ==> e in entries[..i])
            && if used + Total(cost, ahead) + cost(entries[i]) <= budget
               then |ahead| < |all| && all[|ahead|] == entries[i]
               else used + Total(cost, all) + cost(entries[i]) > budget
  {
    TakenMembers(entries[..i], cost, budget, used);
    TakenPrefix(entries, i, cost, budget, used);
    TakenPrefix(entries, i + 1, cost, budget, used);
    SpentIsTotal(entries[..i], cost, budget, used);
    SpentIsTotal(entries, cost, budget, used);
    assert entries[..i + 1][..i] == entries[..i];
  }

  lemma {:induction false} UnshownMembers(entries: seq<Entry>, covered: set<int>, e: Entry)
    ensures e in Unshown(entries, covered) <==> e in entries && e.chunkIndex !in covered
  {
    if |entries| > 0 {
      var n := |entries| - 1;
      UnshownMembers(entries[..n], covered, e);
      assert entries == entries[..n] + [entries[n]];
    }
  }

  lemma {:induction false} RemainingMembers(leftovers: seq<Leftover>, e: Entry)
    ensures e in Remaining(leftovers) <==>
            exists s :: 0 <= s < |leftovers| && e in leftovers[s].entries && e.chunkIndex !in leftovers[s].covered
  {
    if |leftovers| > 0 {
      var n := |leftovers| - 1;
      RemainingMembers(leftovers[..n], e);
      UnshownMembers(leftovers[n].entries, leftovers[n].covered, e);
    }
  }

  lemma ByDateIsTotal()
    ensures TotalPreorder(ByDate)
  {
    forall a: Entry, b: Entry
      ensures ByDate(a, b) || ByDate(b, a)
    {
      LexTotal(a.date, b.date);
      if LexLe(a.date, b.date) && LexLe(b.date, a.date) {
        LexAntisymmetric(a.date, b.date);
      }
    }
    forall a: Entry, b: Entry, c: Entry | ByDate(a, b) && ByDate(b, c)
      ensures ByDate(a, c)
    {
      LexTransitive(a.date, b.date, c.date);
      if a.date == c.date {
        LexAntisymmetric(a.date, b.date);
      }
    }
  }

  /** An earlier session date first, then the better source, then the earlier chunk. */
  predicate ShownBefore(a: Entry, b: Entry) {
    && LexLe(a.date, b.date)
    && (a.date == b.date ==> a.rank <= b.rank && (a.rank == b.rank ==> a.chunkIndex <= b.chunkIndex))
  }

  /** The result lists the selected entries oldest session first; sorting adds and loses none. */
  lemma OldestFirst(q: Query, sources: seq<Source>, cost: Entry -> int, budget: int, used: int)
    ensures var selected := Select(q, sources, cost, budget, used);
            && SortedBy(selected, ByDate)
            && (forall i, j :: 0 <= i < j < |selected| ==> ShownBefore(selected[i], selected[j]))
            && Presentable(Collect(q, sources))
            && multiset(selected) == multiset(PackAll(q, Collect(q, sources), cost, budget, used).selected)
  {
    CollectPresentable(q, sources);
    var packed := PackAll(q, Collect(q, sources), cost, budget, used).selected;
    ByDateIsTotal();
    SortSorted(packed, ByDate);
    SortPermutes(packed, ByDate);
    var selected := Sort(packed, ByDate);
    forall i, j | 0 <= i < j < |selected|
      ensures ShownBefore(selected[i], selected[j])
    {
      assert ByDate(selected[i], selected[j]);
    }
  }

  /** The fill goes through what is left best score first, then by source rank, then by position. */
  lemma FillOrder(leftovers: seq<Leftover>)
    ensures var order := Sort(Remaining(leftovers), ByFill);
            forall i, j :: 0 <= i < j < |order| ==> FillsBefore(order[i], order[j])
  {
    SortSorted(Remaining(leftovers), ByFill);
  }

  /** A higher score first (scores are kept negated), then the better source, then the earlier chunk. */
  predicate FillsBefore(a: Entry, b: Entry) {
    && a.negScore <= b.negScore
    && (a.negScore == b.negScore ==> a.rank <= b.rank && (a.rank == b.rank ==> a.chunkIndex <= b.chunkIndex))
  }

  // ---------- where selected entries come from ----------

  /** After pass 1: entry i is the offer of candidate spans[i].src, candidates appear in rank order, each
      continuation belongs to an anchored entry, and each leftover is the whole source or what its
      offer leaves. */
  ghost predicate Homed(q: Query, cs: seq<Candidate>, p: Pack)
    requires Presentable(cs)
  {
    && Shaped(p) && |p.leftovers| == |cs|
    && SelectedHomed(q, cs, p) && PendingHomed(q, cs, p) && LeftoversHomed(cs, p)
  }

  ghost predicate SelectedHomed(q: Query, cs: seq<Candidate>, p: Pack)
    requires Presentable(cs) && Shaped(p) && |p.leftovers| == |cs|
  {
    && (forall i :: 0 <= i < |p.selected| ==> OfferHomed(q, cs, p, i))
    && (forall i, j :: 0 <= i < j < |p.selected| ==> p.spans[i].src < p.spans[j].src)
  }

  predicate OfferHomed(q: Query, cs: seq<Candidate>, p: Pack, i: nat)
    requires Presentable(cs) && Shaped(p) && |p.leftovers| == |cs| && i < |p.selected|
  {
    var s := p.spans[i].src;
    && s < |cs|
    && p.selected[i] == Offer(q, cs[s])
    && p.spans[i] == OfferSpan(q, cs[s], s)
    && p.leftovers[s] == LeftoverOf(q, cs[s])
  }

  ghost predicate PendingHomed(q: Query, cs: seq<Candidate>, p: Pack)
    requires Presentable(cs) && Shaped(p) && |p.leftovers| == |cs|
  {
    forall k :: 0 <= k < |p.pending| ==> ContinuationHomed(q, cs, p, p.pending[k])
  }

  predicate ContinuationHomed(q: Query, cs: seq<Candidate>, p: Pack, pd: Pending)
    requires Presentable(cs) && Shaped(p) && |p.leftovers| == |cs|
  {
    && InRange(pd, p)
    && pd.left == p.spans[pd.at].src
    && pd in Continuations(q, cs[pd.left], pd.at, pd.left)
  }

  ghost predicate LeftoversHomed(cs: seq<Candidate>, p: Pack)
    requires Presentable(cs) && Shaped(p) && |p.leftovers| == |cs|
  {
    forall s :: 0 <= s < |cs| ==>
      p.leftovers[s] == Leftover(cs[s].ranked, {}) || exists i :: 0 <= i < |p.selected| && p.spans[i].src == s
  }

  lemma {:induction false} AdmitAllHomed(q: Query, cs: seq<Candidate>, cost: Entry -> int, budget: int, used: int)
    requires Presentable(cs)
    ensures Homed(q, cs, AdmitAll(q, cs, cost, budget, used))
  {
    AdmitAllShaped(q, cs, cost, budget, used);
    if |cs| > 0 {
      var n := |cs| - 1;
      AdmitAllHomed(q, cs[..n], cost, budget, used);
      AdmitHomed(q, cs, cost, budget, AdmitAll(q, cs[..n], cost, budget, used));
    }
  }

  lemma AdmitHomed(q: Query, cs: seq<Candidate>, cost: Entry -> int, budget: int, p: Pack)
    requires |cs| > 0 && Presentable(cs) && Homed(q, cs[..|cs| - 1], p)
    ensures Homed(q, cs, Admit(q, cs[|cs| - 1], cost, budget, p))
  {
    var r := Admit(q, cs[|cs| - 1], cost, budget, p);
    assert Shaped(r) && |r.leftovers| == |cs|;
    AdmitSelectedHomed(q, cs, cost, budget, p);
    AdmitPendingHomed(q, cs, cost, budget, p);
    AdmitLeftoversHomed(q, cs, cost, budget, p);
  }

  lemma AdmitSelectedHomed(q: Query, cs: seq<Candidate>, cost: Entry -> int, budget: int, p: Pack)
    requires |cs| > 0 && Presentable(cs) && Homed(q, cs[..|cs| - 1], p)
    requires Shaped(Admit(q, cs[|cs| - 1], cost, budget, p))
    ensures SelectedHomed(q, cs, Admit(q, cs[|cs| - 1], cost, budget, p))
  {
    var n := |cs| - 1;
    var r := Admit(q, cs[n], cost, budget, p);
    forall i | 0 <= i < |r.selected|
      ensures OfferHomed(q, cs, r, i)
      ensures i < |p.selected| ==> r.spans[i].src < n
    {
      if i < |p.selected| {
        assert OfferHomed(q, cs[..n], p, i);
      }
    }
  }

  lemma ContinuationFields(q: Query, c: Candidate, at: nat, left: nat, pd: Pending)
    requires |c.ranked| > 0 && pd in Continuations(q, c, at, left)
    ensures pd.at == at && pd.left == left
  {
  }

  lemma AdmitPendingHomed(q: Query, cs: seq<Candidate>, cost: Entry -> int, budget: int, p: Pack)
    requires |cs| > 0 && Presentable(cs) && Homed(q, cs[..|cs| - 1], p)
    requires Shaped(Admit(q, cs[|cs| - 1], cost, budget, p))
    ensures PendingHomed(q, cs, Admit(q, cs[|cs| - 1], cost, budget, p))
  {
    var n := |cs| - 1;
    var r := Admit(q, cs[n], cost, budget, p);
    forall k | 0 <= k < |r.pending|
      ensures ContinuationHomed(q, cs, r, r.pending[k])
    {
      if k < |p.pending| {
        assert ContinuationHomed(q, cs[..n], p, p.pending[k]);
      } else {
        var more := Continuations(q, cs[n], |p.selected|, n);
        assert r.pending == p.pending + more;
        assert r.pending[k] == more[k - |p.pending|];
        ContinuationFields(q, cs[n], |p.selected|, n, r.pending[k]);
      }
    }
  }

  lemma AdmitLeftoversHomed(q: Query, cs: seq<Candidate>, cost: Entry -> int, budget: int, p: Pack)
    requires |cs| > 0 && Presentable(cs) && Homed(q, cs[..|cs| - 1], p)
    requires Shaped(Admit(q, cs[|cs| - 1], cost, budget, p))
    ensures LeftoversHomed(cs, Admit(q, cs[|cs| - 1], cost, budget, p))
  {
    var n := |cs| - 1;
    var r := Admit(q, cs[n], cost, budget, p);
    forall s | 0 <= s < |cs|
      ensures r.leftovers[s] == Leftover(cs[s].ranked, {}) || exists i :: 0 <= i < |r.selected| && r.spans[i].src == s
    {
      if s < n && p.leftovers[s] != Leftover(cs[s].ranked, {}) {
        var i :| 0 <= i < |p.selected| && p.spans[i].src == s;
        assert r.spans[i].src == s;
      } else if s == n && |r.selected| > |p.selected| {
        assert r.spans[|p.selected|].src == s;
      }
    }
  }

  /** The continuation phase: spans keep their source, leftovers keep their entries and only gain covered
      chunks, and an entry without continuations is untouched. */
  lemma ExtendKeepsHomes(cost: Entry -> int, budget: int, p: Pack)
    requires Shaped(p)
    ensures SameHomes(p, ExtendAll(p.pending, cost, budget, p))
    ensures Untouched(p, ExtendAll(p.pending, cost, budget, p), |p.pending|)
  {
    var inv := (r: Pack, k: nat) => SameHomes(p, r) && k <= |p.pending| && Untouched(p, r, k);
    forall r, k: nat | inv(r, k) && Shaped(r) && r.pending == p.pending && k < |p.pending|
      ensures inv(Extend(p.pending[k], cost, budget, r), k + 1)
    {
      ExtendHomes(p.pending[k], cost, budget, p, r);
    }
    assert SameHomes(p, p) && Untouched(p, p, 0);
    assert p.pending[0..] == p.pending;
    ExtendInduction(inv, 0, cost, budget, p);
  }

  /** Entries that none of the first n continuations grows. */
  ghost predicate Untouched(p: Pack, r: Pack, n: nat)
    requires n <= |p.pending| && |r.selected| == |p.selected|
  {
    forall i :: 0 <= i < |p.selected| && (forall k :: 0 <= k < n ==> p.pending[k].at != i) ==>
      r.selected[i] == p.selected[i]
  }

  ghost predicate SameHomes(p: Pack, r: Pack) {
    && |r.spans| == |r.selected| == |p.selected| == |p.spans| && |r.leftovers| == |p.leftovers|
    && (forall i :: 0 <= i < |p.selected| ==> r.spans[i].src == p.spans[i].src)
    && (forall s :: 0 <= s < |p.leftovers| ==>
          r.leftovers[s].entries == p.leftovers[s].entries && p.leftovers[s].covered <= r.leftovers[s].covered)
  }

  lemma ExtendHomes(pd: Pending, cost: Entry -> int, budget: int, p: Pack, r: Pack)
    requires Shaped(r) && InRange(pd, r) && SameHomes(p, r)
    ensures SameHomes(p, Extend(pd, cost, budget, r))
    ensures forall i :: 0 <= i < |r.selected| && i != pd.at ==> Extend(pd, cost, budget, r).selected[i] == r.selected[i]
  {
  }

  // ---------- every chunk that was left out did not fit ----------

  /** At the end, every chunk of every candidate is selected, or lies in a chunk an anchored excerpt already
      shows, or would still overflow the budget. */
  lemma NothingElseFits(q: Query, cs: seq<Candidate>, cost: Entry -> int, budget: int, used: int, s: nat, e: Entry)
    requires Presentable(cs) && Positive(cost) && s < |cs| && e in cs[s].ranked
    ensures var p := PackAll(q, cs, cost, budget, used);
            && |p.leftovers| == |cs|
            && (e in p.selected || e.chunkIndex in p.leftovers[s].covered || p.used + cost(e) > budget)
  {
    AdmitAllHomed(q, cs, cost, budget, used);
    var admitted := AdmitAll(q, cs, cost, budget, used);
    ExtendKeepsHomes(cost, budget, admitted);
    var extended := ExtendAll(admitted.pending, cost, budget, admitted);
    var order := Sort(Remaining(extended.leftovers), ByFill);
    SpentIsTotal(order, cost, budget, extended.used);
    if e in extended.leftovers[s].entries {
      if e.chunkIndex !in extended.leftovers[s].covered {
        RemainingMembers(extended.leftovers, e);
        SortMembers(Remaining(extended.leftovers), ByFill, e);
        var i :| 0 <= i < |order| && order[i] == e;
        FillIsGreedy(order, i, cost, budget, extended.used);
      }
    } else {
      ShownFirstStays(q, cs, cost, budget, used, s, e);
    }
  }

  lemma ShownFirstStays(q: Query, cs: seq<Candidate>, cost: Entry -> int, budget: int, used: int, s: nat, e: Entry)
    requires Presentable(cs) && s < |cs| && e in cs[s].ranked
    requires Shaped(AdmitAll(q, cs, cost, budget, used))
    requires Homed(q, cs, AdmitAll(q, cs, cost, budget, used))
    requires e !in AdmitAll(q, cs, cost, budget, used).leftovers[s].entries
    ensures var p := AdmitAll(q, cs, cost, budget, used); e in ExtendAll(p.pending, cost, budget, p).selected
  {
    var p := AdmitAll(q, cs, cost, budget, used);
    var i :| 0 <= i < |p.selected| && p.spans[i].src == s;
    assert OfferHomed(q, cs, p, i);
    assert Anchoring(q, cs[s]).None? && e == cs[s].ranked[0] == p.selected[i];
    forall k | 0 <= k < |p.pending|
      ensures p.pending[k].at != i
    {
      assert ContinuationHomed(q, cs, p, p.pending[k]);
    }
    ExtendKeepsHomes(cost, budget, p);
    assert ExtendAll(p.pending, cost, budget, p).selected[i] == e;
  }

  // ---------- the per-source guarantee ----------

  function OfferTotal(q: Query, cs: seq<Candidate>, cost: Entry -> int): int
    requires Presentable(cs)
  {
    if |cs| == 0 then 0 else OfferTotal(q, cs[..|cs| - 1], cost) + cost(Offer(q, cs[|cs| - 1]))
  }

  function Offers(q: Query, cs: seq<Candidate>): (r: seq<Entry>)
    requires Presentable(cs)
    ensures |r| == |cs|
  {
    seq(|cs|, i requires 0 <= i < |cs| => Offer(q, cs[i]))
  }

  lemma OfferFits(q: Query, c: Candidate, cost: Entry -> int, budget: int, p: Pack, e: Entry)
    requires |c.ranked| > 0 && e == Offer(q, c) && p.used + cost(e) <= budget
    ensures var r := Admit(q, c, cost, budget, p);
            r.selected == p.selected + [e] && r.used == p.used + cost(e)
  {
  }

  lemma OffersStep(q: Query, cs: seq<Candidate>)
    requires |cs| > 0 && Presentable(cs)
    ensures Offers(q, cs) == Offers(q, cs[..|cs| - 1]) + [Offer(q, cs[|cs| - 1])]
  {
  }

  lemma {:induction false} AllOffersFit(q: Query, cs: seq<Candidate>, cost: Entry -> int, budget: int, used: int)
    requires Presentable(cs) && Positive(cost)
    requires used + OfferTotal(q, cs, cost) <= budget
    ensures var p := AdmitAll(q, cs, cost, budget, used);
            p.used == used + OfferTotal(q, cs, cost) && p.selected == Offers(q, cs)
  {
    if |cs| > 0 {
      var n := |cs| - 1;
      var e := Offer(q, cs[n]);
      AllOffersFit(q, cs[..n], cost, budget, used);
      OfferFits(q, cs[n], cost, budget, AdmitAll(q, cs[..n], cost, budget, used), e);
      OffersStep(q, cs);
    }
  }

  /** `after` is `before` with text possibly added at its ends. */
  ghost predicate Keeps(before: Entry, after: Entry) {
    && after == before.(text := after.text)
    && exists pre, post :: after.text == pre + before.text + post
  }

  lemma KeepsSelf(e: Entry)
    ensures Keeps(e, e)
  {
    assert e.text == "" + e.text + "";
  }

  lemma KeepsTransitive(a: Entry, b: Entry, c: Entry)
    requires Keeps(a, b) && Keeps(b, c)
    ensures Keeps(a, c)
  {
    var p, s :| b.text == p + a.text + s;
    var p', s' :| c.text == p' + b.text + s';
    assert c.text == (p' + p) + a.text + (s + s');
  }

  lemma GrownKeeps(e: Entry, pd: Pending)
    ensures Keeps(e, Grown(e, pd))
  {
    if pd.above {
      assert Grown(e, pd).text == (pd.text + "\n") + e.text + "";
    } else {
      assert Grown(e, pd).text == "" + e.text + ("\n" + pd.text);
    }
  }

  lemma ExtendEntry(pd: Pending, cost: Entry -> int, budget: int, p: Pack, i: nat)
    requires Shaped(p) && InRange(pd, p) && i < |p.selected|
    ensures |Extend(pd, cost, budget, p).selected| == |p.selected|
    ensures Keeps(p.selected[i], Extend(pd, cost, budget, p).selected[i])
  {
    KeepsSelf(p.selected[i]);
    GrownKeeps(p.selected[i], pd);
  }

  lemma ExtendKeepsEntries(cost: Entry -> int, budget: int, p: Pack, i: nat)
    requires Shaped(p) && i < |p.selected|
    ensures var r := ExtendAll(p.pending, cost, budget, p);
            i < |r.selected| && Keeps(p.selected[i], r.selected[i])
  {
    var inv := (r: Pack, k: nat) => i < |r.selected| && Keeps(p.selected[i], r.selected[i]);
    KeepsSelf(p.selected[i]);
    forall r, k: nat | inv(r, k) && Shaped(r) && r.pending == p.pending && k < |p.pending|
      ensures inv(Extend(p.pending[k], cost, budget, r), k + 1)
    {
      ExtendEntry(p.pending[k], cost, budget, r, i);
      KeepsTransitive(p.selected[i], r.selected[i], Extend(p.pending[k], cost, budget, r).selected[i]);
    }
    assert p.pending[0..] == p.pending;
    ExtendInduction(inv, 0, cost, budget, p);
  }

  /** No later phase removes or shortens what pass 1 admitted. */
  lemma AdmittedSurvive(q: Query, cs: seq<Candidate>, cost: Entry -> int, budget: int, used: int, i: nat)
    requires Presentable(cs) && Positive(cost)
    requires i < |AdmitAll(q, cs, cost, budget, used).selected|
    ensures var final := PackAll(q, cs, cost, budget, used).selected;
            i < |final| && Keeps(AdmitAll(q, cs, cost, budget, used).selected[i], final[i])
  {
    AdmitAllShaped(q, cs, cost, budget, used);
    var p := AdmitAll(q, cs, cost, budget, used);
    ExtendKeepsEntries(cost, budget, p, i);
  }

  /** If the guaranteed entries of all sources fit together, every source with a non-blank chunk appears in
      the result with its guaranteed text intact. */
  lemma EverySourceShown(q: Query, sources: seq<Source>, cost: Entry -> int, budget: int, used: int, s: nat)
    requires Presentable(Collect(q, sources)) && Positive(cost)
    requires used + OfferTotal(q, Collect(q, sources), cost) <= budget
    requires s < |Collect(q, sources)|
    ensures exists e :: e in Select(q, sources, cost, budget, used) && Keeps(Offer(q, Collect(q, sources)[s]), e)
  {
    var cs := Collect(q, sources);
    AllOffersFit(q, cs, cost, budget, used);
    AdmittedSurvive(q, cs, cost, budget, used, s);
    var final := PackAll(q, cs, cost, budget, used).selected;
    SortMembers(final, ByDate, final[s]);
  }

  ghost predicate HasText(s: Source) {
    s.Source? && exists k :: 0 <= k < |s.chunks| && Strip(s.chunks[k].text) != ""
  }

  ghost predicate HasRank(cs: seq<Candidate>, r: int) {
    exists s :: 0 <= s < |cs| && cs[s].rank == r
  }

  lemma HasRankAppend(cs: seq<Candidate>, c: Candidate, r: int)
    ensures HasRank(cs + [c], r) <==> HasRank(cs, r) || c.rank == r
  {
    if HasRank(cs, r) {
      var s :| 0 <= s < |cs| && cs[s].rank == r;
      assert (cs + [c])[s].rank == r;
    } else if c.rank == r {
      assert (cs + [c])[|cs|].rank == r;
    }
  }

  /** The candidates are exactly the sources that hold a non-blank chunk, under their own rank. */
  lemma {:induction false} SourceIsCandidate(q: Query, sources: seq<Source>, r: nat)
    requires r < |sources|
    ensures HasRank(Collect(q, sources), r) <==> HasText(sources[r])
  {
    var n := |sources| - 1;
    var s := sources[n];
    CollectPresentable(q, sources[..n]);
    if s.Source? {
      KeptIsEmpty(s.chunks);
      HasRankAppend(Collect(q, sources[..n]), CandidateOf(q, n, s), r);
    }
    if r < n {
      SourceIsCandidate(q, sources[..n], r);
      assert sources[..n][r] == sources[r];
    }
  }

  lemma {:induction false} KeptIsEmpty(chunks: seq<Chunk>)
    ensures Kept(chunks) == [] <==> forall k :: 0 <= k < |chunks| ==> Strip(chunks[k].text) == ""
  {
    if |chunks| > 0 {
      KeptIsEmpty(chunks[..|chunks| - 1]);
    }
  }

  lemma ByScoreSorts(xs: seq<Entry>)
    ensures SortedBy(Sort(xs, ByScore), ByScore)
  {
    SortSorted(xs, ByScore);
  }

  /** Every candidate lists its entries best score first and its chunks in session order. */
  lemma {:induction false} CandidatesAreSorted(q: Query, sources: seq<Source>, s: nat)
    requires s < |Collect(q, sources)|
    ensures SortedBy(Collect(q, sources)[s].ranked, ByScore)
    ensures var es := Collect(q, sources)[s].ranked;
            forall i, j :: 0 <= i < j < |es| ==>
              && es[i].negScore <= es[j].negScore
              && (es[i].negScore == es[j].negScore ==> es[i].chunkIndex <= es[j].chunkIndex)
    ensures var chunks := Collect(q, sources)[s].ordered;
            forall i, j :: 0 <= i < j < |chunks| ==> chunks[i].index <= chunks[j].index
  {
    var n := |sources| - 1;
    if s < |Collect(q, sources[..n])| {
      CandidatesAreSorted(q, sources[..n], s);
    } else {
      var kept := Kept(sources[n].chunks);
      ByScoreSorts(EntriesOf(q, n, sources[n], kept));
      SortSorted(kept, ByIndex);
    }
  }

  // ---------- what a candidate holds ----------

  function NonBlank(): Chunk -> bool {
    (c: Chunk) => Strip(c.text) != ""
  }

  /** The entry for one chunk of a source: its score negated, its place, its session and its text. */
  function EntryFrom(q: Query, rank: int, s: Source): Chunk -> Entry
    requires s.Source?
  {
    (c: Chunk) => Entry(-(q.chunkScore(c.text) as int), rank, c.index, s.sessionId, s.date, c.text)
  }

  lemma {:induction false} KeptIsFilter(chunks: seq<Chunk>)
    ensures Kept(chunks) == Lists.Filter(NonBlank(), chunks)
  {
    if |chunks| > 0 {
      KeptIsFilter(chunks[..|chunks| - 1]);
    }
  }

  /** The candidate holds exactly the source's chunks with visible text, and one entry for each. */
  ghost predicate HoldsSource(q: Query, source: Source, rank: int, c: Candidate) {
    && source.Source? && c.rank == rank
    && multiset(c.ordered) == multiset(Lists.Filter(NonBlank(), source.chunks))
    && multiset(c.ranked) == multiset(Lists.Map(EntryFrom(q, rank, source), Lists.Filter(NonBlank(), source.chunks)))
  }

  lemma SortBag<T>(a: seq<T>, b: seq<T>, le: (T, T) -> bool)
    requires a == b
    ensures multiset(Sort(a, le)) == multiset(b)
  {
    SortPermutes(a, le);
  }

  lemma EntriesAreMapped(q: Query, rank: int, s: Source, chunks: seq<Chunk>)
    requires s.Source?
    ensures EntriesOf(q, rank, s, chunks) == Lists.Map(EntryFrom(q, rank, s), chunks)
  {
  }

  lemma {:induction false} CandidateHolds(q: Query, rank: int, s: Source)
    requires s.Source?
    ensures HoldsSource(q, s, rank, CandidateOf(q, rank, s))
  {
    var kept, shown := Kept(s.chunks), Lists.Filter(NonBlank(), s.chunks);
    KeptIsFilter(s.chunks);
    SortBag(kept, shown, ByIndex);
    EntriesAreMapped(q, rank, s, shown);
    SortBag(EntriesOf(q, rank, s, kept), Lists.Map(EntryFrom(q, rank, s), shown), ByScore);
  }

  /** Every candidate holds all of one source, and the candidates come in the order of their sources. */
  lemma {:induction false} CandidateIsSource(q: Query, sources: seq<Source>, s: nat)
    requires s < |Collect(q, sources)|
    ensures var c := Collect(q, sources)[s]; 0 <= c.rank < |sources| && HoldsSource(q, sources[c.rank], c.rank, c)
    ensures forall t :: 0 <= t < s ==> Collect(q, sources)[t].rank < Collect(q, sources)[s].rank
  {
    var n := |sources| - 1;
    CollectPresentable(q, sources[..n]);
    if s < |Collect(q, sources[..n])| {
      CandidateIsSource(q, sources[..n], s);
    } else {
      CandidateHolds(q, n, sources[n]);
    }
  }

  /** What is offered for a source: its best chunk, or under the same label the excerpt anchored in its chunks. */
  lemma OfferIsAnchored(q: Query, c: Candidate, best: nat, a: Anchored)
    requires |c.ranked| > 0
    ensures var e := c.ranked[0];
            && (AnchorsAt(q, c.ordered, e.chunkIndex, e.text, best, a) ==>
                  Offer(q, c) == Entry(e.negScore, e.rank, a.chunkIndex, e.sessionId, e.date, a.text))
            && (Offer(q, c) == e
                || exists b, x :: AnchorsAt(q, c.ordered, e.chunkIndex, e.text, b, x) && Offer(q, c).text == x.text)
  {
    var e := c.ranked[0];
    AnchoringFires(q, c.ordered, e.chunkIndex, e.text, a);
    if Anchoring(q, c).Some? {
      AnchoringFires(q, c.ordered, e.chunkIndex, e.text, Anchoring(q, c).value);
    }
  }

  // ---------- anchoring and pass-1 admission ----------

  /** The same question with anchoring switched off: no line scores. */
  function Baseline(q: Query): Query {
    q.(lineScore := _ => 0)
  }

  lemma {:induction false} NoLineKept(q: Query, lines: seq<Line>, n: nat)
    requires n <= |lines|
    ensures Best(Baseline(q), lines, n) == -1
  {
    if n > 0 {
      NoLineKept(q, lines, n - 1);
    }
  }

  lemma BaselineOffersBest(q: Query, c: Candidate)
    requires |c.ranked| > 0
    ensures Anchoring(Baseline(q), c) == None && Offer(Baseline(q), c) == c.ranked[0]
  {
    NoLineKept(q, Stream(c.ordered), |Stream(c.ordered)|);
  }

  lemma OfferKeepsLabel(q: Query, c: Candidate)
    requires |c.ranked| > 0
    ensures Offer(q, c).sessionId == c.ranked[0].sessionId && Offer(q, c).date == c.ranked[0].date
  {
  }

  /** What is offered for a source is, with its printed ordinal, no longer than the chunk it replaces. */
  lemma OfferIsShorter(q: Query, c: Candidate)
    requires |c.ranked| > 0
    ensures var e, best := Offer(q, c), c.ranked[0];
            |e.text| + |Str(e.chunkIndex + 1)| <= |best.text| + |Str(best.chunkIndex + 1)|
  {
    var anchoring, best := Anchoring(q, c), c.ranked[0];
    if anchoring.Some? {
      ExcerptIsShorter(q, c.ordered, best.chunkIndex, best.text, anchoring.value);
    }
  }

  predicate Admits(q: Query, cs: seq<Candidate>, cost: Entry -> int, budget: int, used: int, i: nat)
    requires Presentable(cs) && i < |cs|
  {
    AdmitAll(q, cs[..i], cost, budget, used).used + cost(Offer(q, cs[i])) <= budget
  }

  /** What anchoring saves on the first n sources the baseline admits. */
  function Saved(q: Query, cs: seq<Candidate>, n: nat, cost: Entry -> int, budget: int, used: int): int
    requires Presentable(cs) && n <= |cs|
  {
    if n == 0 then 0
    else
      Saved(q, cs, n - 1, cost, budget, used)
      + if Admits(Baseline(q), cs, cost, budget, used, n - 1)
        then cost(cs[n - 1].ranked[0]) - cost(Offer(q, cs[n - 1])) else 0
  }

  ghost predicate Dominated(q: Query, cs: seq<Candidate>, cost: Entry -> int)
    requires Presentable(cs)
  {
    forall i :: 0 <= i < |cs| ==> cost(Offer(q, cs[i])) <= cost(cs[i].ranked[0])
  }

  /** By how much source i would overflow in the run without anchoring. */
  function Overshoot(q: Query, cs: seq<Candidate>, cost: Entry -> int, budget: int, used: int, i: nat): int
    requires Presentable(cs) && i < |cs|
  {
    AdmitAll(Baseline(q), cs[..i], cost, budget, used).used + cost(cs[i].ranked[0]) - budget
  }

  lemma {:induction false} SameDecisionsSave(q: Query, cs: seq<Candidate>, n: nat, cost: Entry -> int, budget: int, used: int)
    requires Presentable(cs) && n <= |cs|
    requires SameAdmission(q, cs, n, cost, budget, used)
    ensures AdmitAll(q, cs[..n], cost, budget, used).used
         == AdmitAll(Baseline(q), cs[..n], cost, budget, used).used - Saved(q, cs, n, cost, budget, used)
  {
    if n > 0 {
      SameDecisionsSave(q, cs, n - 1, cost, budget, used);
      assert cs[..n][..n - 1] == cs[..n - 1];
      BaselineOffersBest(q, cs[n - 1]);
      assert SameDecision(q, cs, cost, budget, used, n - 1);
    }
  }

  predicate SameDecision(q: Query, cs: seq<Candidate>, cost: Entry -> int, budget: int, used: int, i: nat)
    requires Presentable(cs) && i < |cs|
  {
    Admits(q, cs, cost, budget, used, i) == Admits(Baseline(q), cs, cost, budget, used, i)
  }

  /** What anchoring has saved up to and including source i, if it is admitted; negative where anchored entries
      cost more. */
  function Relief(q: Query, cs: seq<Candidate>, cost: Entry -> int, budget: int, used: int, i: nat): int
    requires Presentable(cs) && i < |cs|
  {
    Saved(q, cs, i, cost, budget, used) + cost(cs[i].ranked[0]) - cost(Offer(q, cs[i]))
  }

  /** Source i overflows without anchoring exactly if it overflows by more than anchoring has saved. */
  predicate SameSide(q: Query, cs: seq<Candidate>, cost: Entry -> int, budget: int, used: int, i: nat)
    requires Presentable(cs) && i < |cs|
  {
    Overshoot(q, cs, cost, budget, used, i) > 0
    <==> Overshoot(q, cs, cost, budget, used, i) > Relief(q, cs, cost, budget, used, i)
  }

  /** If the run without anchoring turns source i away, it overflows by more than anchoring has saved. */
  predicate OutOfReach(q: Query, cs: seq<Candidate>, cost: Entry -> int, budget: int, used: int, i: nat)
    requires Presentable(cs) && i < |cs|
  {
    Overshoot(q, cs, cost, budget, used, i) > 0 ==>
      Overshoot(q, cs, cost, budget, used, i) > Relief(q, cs, cost, budget, used, i)
  }

  /** Pass 1 admits the same of the first n sources with and without anchoring. */
  ghost predicate SameAdmission(q: Query, cs: seq<Candidate>, n: nat, cost: Entry -> int, budget: int, used: int)
    requires Presentable(cs) && n <= |cs|
  {
    forall i :: 0 <= i < n ==> SameDecision(q, cs, cost, budget, used, i)
  }

  ghost predicate NoneChangesSide(q: Query, cs: seq<Candidate>, n: nat, cost: Entry -> int, budget: int, used: int)
    requires Presentable(cs) && n <= |cs|
  {
    forall i :: 0 <= i < n ==> SameSide(q, cs, cost, budget, used, i)
  }

  ghost predicate NoneInReach(q: Query, cs: seq<Candidate>, n: nat, cost: Entry -> int, budget: int, used: int)
    requires Presentable(cs) && n <= |cs|
  {
    forall i :: 0 <= i < n ==> OutOfReach(q, cs, cost, budget, used, i)
  }

  /** Anchoring is meant to leave pass-1 admission as it was. For every cost function it does exactly when no
      source is moved to the other side of the budget by what anchoring has saved, or added, up to it. */
  lemma {:induction false} AdmissionUnchanged(q: Query, cs: seq<Candidate>, n: nat, cost: Entry -> int, budget: int, used: int)
    requires Presentable(cs) && n <= |cs|
    ensures SameAdmission(q, cs, n, cost, budget, used) <==> NoneChangesSide(q, cs, n, cost, budget, used)
  {
    if n > 0 {
      AdmissionUnchanged(q, cs, n - 1, cost, budget, used);
      SameStep(q, cs, n, cost, budget, used);
      SideStep(q, cs, n, cost, budget, used);
      if SameAdmission(q, cs, n - 1, cost, budget, used) {
        NextDecision(q, cs, n - 1, cost, budget, used);
      }
    }
  }

  /** Where anchoring never costs more, only turned-away sources can change sides. */
  lemma DominatedAdmissionUnchanged(q: Query, cs: seq<Candidate>, cost: Entry -> int, budget: int, used: int)
    requires Presentable(cs) && Dominated(q, cs, cost)
    ensures SameAdmission(q, cs, |cs|, cost, budget, used) <==> NoneInReach(q, cs, |cs|, cost, budget, used)
  {
    AdmissionUnchanged(q, cs, |cs|, cost, budget, used);
    forall i | 0 <= i < |cs|
      ensures SameSide(q, cs, cost, budget, used, i) <==> OutOfReach(q, cs, cost, budget, used, i)
    {
      DominatedSaves(q, cs, i, cost, budget, used);
    }
  }

  lemma {:induction false} DominatedSaves(q: Query, cs: seq<Candidate>, n: nat, cost: Entry -> int, budget: int, used: int)
    requires Presentable(cs) && n <= |cs| && Dominated(q, cs, cost)
    ensures Saved(q, cs, n, cost, budget, used) >= 0
  {
    if n > 0 {
      DominatedSaves(q, cs, n - 1, cost, budget, used);
    }
  }

  lemma SameStep(q: Query, cs: seq<Candidate>, n: nat, cost: Entry -> int, budget: int, used: int)
    requires Presentable(cs) && 0 < n <= |cs|
    ensures SameAdmission(q, cs, n, cost, budget, used)
       <==> SameAdmission(q, cs, n - 1, cost, budget, used) && SameDecision(q, cs, cost, budget, used, n - 1)
  {
  }

  lemma SideStep(q: Query, cs: seq<Candidate>, n: nat, cost: Entry -> int, budget: int, used: int)
    requires Presentable(cs) && 0 < n <= |cs|
    ensures NoneChangesSide(q, cs, n, cost, budget, used)
       <==> NoneChangesSide(q, cs, n - 1, cost, budget, used) && SameSide(q, cs, cost, budget, used, n - 1)
  {
  }

  lemma NextDecision(q: Query, cs: seq<Candidate>, n: nat, cost: Entry -> int, budget: int, used: int)
    requires Presentable(cs) && n < |cs| && SameAdmission(q, cs, n, cost, budget, used)
    ensures SameDecision(q, cs, cost, budget, used, n) <==> SameSide(q, cs, cost, budget, used, n)
  {
    SameDecisionsSave(q, cs, n, cost, budget, used);
    BaselineOffersBest(q, cs[n]);
  }

  // ---------- admission does change ----------

  lemma AdmitOne(q: Query, c: Candidate, cost: Entry -> int, budget: int)
    requires |c.ranked| > 0
    ensures AdmitAll(q, [c], cost, budget, 0).used == if cost(Offer(q, c)) <= budget then cost(Offer(q, c)) else 0
  {
    assert [c][..0] == [];
    assert AdmitAll(q, [], cost, budget, 0).used == 0;
  }

  /** Of two candidates, each of which fits alone: the second is admitted on top of what the first is shown as. */
  lemma SecondDecision(q: Query, cs: seq<Candidate>, cost: Entry -> int, budget: int)
    requires |cs| == 2 && Presentable(cs) && Offer(q, cs[1]) == cs[1].ranked[0]
    requires cost(cs[0].ranked[0]) <= budget && cost(Offer(q, cs[0])) <= budget
    ensures Admits(q, cs, cost, budget, 0, 1) <==> cost(Offer(q, cs[0])) + cost(cs[1].ranked[0]) <= budget
    ensures Admits(Baseline(q), cs, cost, budget, 0, 1) <==> cost(cs[0].ranked[0]) + cost(cs[1].ranked[0]) <= budget
  {
    BaselineOffersBest(q, cs[0]);
    BaselineOffersBest(q, cs[1]);
    AdmitOne(q, cs[0], cost, budget);
    AdmitOne(Baseline(q), cs[0], cost, budget);
    assert cs[..1] == [cs[0]];
  }

  lemma FirstDecision(q: Query, cs: seq<Candidate>, cost: Entry -> int, budget: int)
    requires |cs| == 2 && Presentable(cs)
    ensures Admits(q, cs, cost, budget, 0, 0) <==> cost(Offer(q, cs[0])) <= budget
    ensures Admits(Baseline(q), cs, cost, budget, 0, 0) <==> cost(cs[0].ranked[0]) <= budget
  {
    BaselineOffersBest(q, cs[0]);
    assert cs[..0] == [];
  }

  /** Pass 1 admits the second of two candidates with anchoring and turns it away without. */
  ghost predicate AdmittedByAnchoring(q: Query, cs: seq<Candidate>, cost: Entry -> int, budget: int) {
    && |cs| == 2 && Presentable(cs)
    && Admits(q, cs, cost, budget, 0, 1) && !Admits(Baseline(q), cs, cost, budget, 0, 1)
    && !SameAdmission(q, cs, 2, cost, budget, 0)
  }

  /** Pass 1 admits both candidates without anchoring and not both with it. */
  ghost predicate LostByAnchoring(q: Query, cs: seq<Candidate>, cost: Entry -> int, budget: int) {
    && |cs| == 2 && Presentable(cs)
    && Admits(Baseline(q), cs, cost, budget, 0, 0) && Admits(Baseline(q), cs, cost, budget, 0, 1)
    && !(Admits(q, cs, cost, budget, 0, 0) && Admits(q, cs, cost, budget, 0, 1))
  }

  lemma OneDecision(q: Query, cs: seq<Candidate>, cost: Entry -> int, budget: int)
    requires |cs| == 2 && Presentable(cs)
    requires Admits(q, cs, cost, budget, 0, 1) && !Admits(Baseline(q), cs, cost, budget, 0, 1)
    ensures AdmittedByAnchoring(q, cs, cost, budget)
  {
    assert !SameDecision(q, cs, cost, budget, 0, 1);
  }

  /** A budget between what the two best chunks cost and what they cost once the first is anchored. */
  lemma CheaperAdmits(q: Query, cs: seq<Candidate>, cost: Entry -> int, budget: int)
    requires |cs| == 2 && Presentable(cs) && Positive(cost) && Offer(q, cs[1]) == cs[1].ranked[0]
    requires cost(cs[0].ranked[0]) <= budget
    requires cost(Offer(q, cs[0])) + cost(cs[1].ranked[0]) <= budget < cost(cs[0].ranked[0]) + cost(cs[1].ranked[0])
    ensures AdmittedByAnchoring(q, cs, cost, budget)
  {
    assert cost(cs[1].ranked[0]) > 0;
    SecondDecision(q, cs, cost, budget);
    OneDecision(q, cs, cost, budget);
  }

  lemma DearerExcludes(q: Query, cs: seq<Candidate>, cost: Entry -> int, budget: int)
    requires |cs| == 2 && Presentable(cs) && Positive(cost) && Offer(q, cs[1]) == cs[1].ranked[0]
    requires cost(cs[0].ranked[0]) + cost(cs[1].ranked[0]) <= budget < cost(Offer(q, cs[0])) + cost(cs[1].ranked[0])
    ensures LostByAnchoring(q, cs, cost, budget)
  {
    assert cost(cs[1].ranked[0]) > 0;
    FirstDecision(q, cs, cost, budget);
    if cost(Offer(q, cs[0])) <= budget {
      SecondDecision(q, cs, cost, budget);
    } else {
      BaselineSecond(q, cs, cost, budget);
    }
  }

  lemma BaselineSecond(q: Query, cs: seq<Candidate>, cost: Entry -> int, budget: int)
    requires |cs| == 2 && Presentable(cs)
    requires cost(cs[0].ranked[0]) <= budget && cost(cs[0].ranked[0]) + cost(cs[1].ranked[0]) <= budget
    ensures Admits(Baseline(q), cs, cost, budget, 0, 1)
  {
    BaselineOffersBest(q, cs[0]);
    BaselineOffersBest(q, cs[1]);
    AdmitOne(Baseline(q), cs[0], cost, budget);
    assert cs[..1] == [cs[0]];
  }
}
