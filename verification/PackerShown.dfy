/** Nothing is left out without a reason: a chunk of which no line is shown would overflow the budget. */
module PackerShown {
  import opened Text
  import opened Anchor
  import opened AnchorWindow
  import opened Wrappers
  import opened Packer
  import opened PackerBudget
  import opened PackerLines

  /** What the scores and the numbering say of a blank line: nothing. */
  predicate BlankIsNothing(q: Query) {
    q.lineScore("") == 0 && !q.enumerated("")
  }

  /** A selected entry shows a line of the chunk. */
  ghost predicate Touched(cs: seq<Candidate>, p: Pack, s: nat, e: Entry)
    requires s < |cs|
  {
    exists i :: 0 <= i < |p.spans| && !Apart(ChunkSpan(s, cs[s], e.chunkIndex), p.spans[i])
  }

  // ---------- a run that ends visibly ----------

  predicate EndsVisibly(lines: seq<Line>, lo: nat, hi: nat) {
    lo < hi <= |lines| && lines[hi - 1].text != ""
  }

  /** A run that holds a line of a chunk and does not end in a seam holds a line of the chunk's own text. */
  lemma RunTouches(cs: seq<Candidate>, s: nat, e: Entry, lo: nat, hi: nat)
    requires GoodCandidates(cs) && s < |cs| && IsChunkOf(cs[s], e)
    requires EndsVisibly(Stream(cs[s].ordered), lo, hi)
    requires e.chunkIndex in RunChunks(Stream(cs[s].ordered), lo, hi)
    ensures !Apart(ChunkSpan(s, cs[s], e.chunkIndex), Span(s, lo, hi))
  {
    var ordered := cs[s].ordered;
    var l :| lo <= l < hi && Stream(ordered)[l].chunk == e.chunkIndex;
    var k := LineHasChunk(ordered, l);
    ChunkShows(cs, s, e);
    var place := PlaceOf(ordered, e.chunkIndex);
    assert k == place;
    BodyIsChunk(ordered, k);
  }

  lemma ScoredLineIsVisible(q: Query, lines: seq<Line>, best: int)
    requires BlankIsNothing(q) && -1 <= best < |lines| && ScoreAt(q, lines, best) > 0
    ensures best >= 0 && lines[best].text != ""
  {
  }

  lemma PlanIsScored(q: Query, ordered: seq<Chunk>, baselineIndex: int, baselineText: string, p: Plan)
    requires AnchorPlan(q, ordered, baselineIndex, baselineText) == Some(p)
    ensures p.best < |Stream(ordered)| && ScoreAt(q, Stream(ordered), p.best) > 0
  {
    PlanOrigin(q, ordered, baselineIndex, baselineText, p);
  }

  lemma WindowOfVisibleLine(q: Query, lines: seq<Line>, best: nat, cap: nat)
    requires best < |lines| && lines[best].text != ""
    ensures var p := WindowPlan(q, lines, best, cap); EndsVisibly(lines, p.low, p.high)
  {
    PlanIsInRange(q, lines, best, cap);
    if |lines[best].text| <= cap {
      WindowIsTrimmedGrowth(q, lines, best, cap);
    }
  }

  lemma WindowEndsVisibly(q: Query, ordered: seq<Chunk>, baselineIndex: int, baselineText: string, p: Plan)
    requires BlankIsNothing(q) && AnchorPlan(q, ordered, baselineIndex, baselineText) == Some(p)
    ensures EndsVisibly(Stream(ordered), p.low, p.high)
  {
    PlanIsScored(q, ordered, baselineIndex, baselineText, p);
    ScoredLineIsVisible(q, Stream(ordered), p.best);
    PlanOrigin(q, ordered, baselineIndex, baselineText, p);
    WindowOfVisibleLine(q, Stream(ordered), p.best, p.cap);
  }

  lemma ContinuationsEndVisibly(q: Query, ordered: seq<Chunk>, baselineIndex: int, baselineText: string, p: Plan)
    requires BlankIsNothing(q) && AnchorPlan(q, ordered, baselineIndex, baselineText) == Some(p)
    ensures PlanFits(p, Stream(ordered))
    ensures p.high < p.bottom ==> EndsVisibly(Stream(ordered), p.high, p.bottom)
    ensures p.top < p.low ==> EndsVisibly(Stream(ordered), p.top, p.low)
  {
    var lines := Stream(ordered);
    PlanOrigin(q, ordered, baselineIndex, baselineText, p);
    DownwardIsMaximal(q, lines, p.best, p.cap);
    UpwardIsMaximal(q, lines, p.best, p.cap);
    assert p.high < p.bottom ==> q.enumerated(lines[p.bottom - 1].text);
    assert p.top < p.low ==> q.enumerated(lines[p.low - 1].text);
  }

  // ---------- the invariant ----------

  /** A chunk that pass 2 will not consider is shown already, at least in part. */
  ghost predicate ClosedTouched(cs: seq<Candidate>, p: Pack) {
    forall s, e :: 0 <= s < |cs| && e in cs[s].ranked && !Open(p, s, e) ==> Touched(cs, p, s, e)
  }

  ghost predicate PendingVisible(cs: seq<Candidate>, p: Pack) {
    forall k :: 0 <= k < |p.pending| ==> VisibleContinuation(cs, p.pending[k])
  }

  predicate VisibleContinuation(cs: seq<Candidate>, pd: Pending) {
    pd.left < |cs| && EndsVisibly(Stream(cs[pd.left].ordered), pd.span.lo, pd.span.hi)
  }

  // ---------- pass 1 establishes it ----------

  lemma OfferTouches(q: Query, cs: seq<Candidate>, s: nat, e: Entry)
    requires GoodCandidates(cs) && BlankIsNothing(q) && s < |cs| && e in cs[s].ranked
    requires e !in LeftoverOf(q, cs[s]).entries || e.chunkIndex in LeftoverOf(q, cs[s]).covered
    ensures !Apart(ChunkSpan(s, cs[s], e.chunkIndex), OfferSpan(q, cs[s], s))
  {
    var c := cs[s];
    assert IsChunkOf(c, e);
    ChunkShows(cs, s, e);
    if Anchoring(q, c).Some? {
      AnchoredShows(q, cs, s);
      var p := AnchorPlan(q, c.ordered, c.ranked[0].chunkIndex, c.ranked[0].text).value;
      WindowEndsVisibly(q, c.ordered, c.ranked[0].chunkIndex, c.ranked[0].text, p);
      RunTouches(cs, s, e, p.low, p.high);
    } else {
      assert e == c.ranked[0];
    }
  }

  lemma {:induction false} SpanOfContinuation(q: Query, c: Candidate, at: nat, left: nat, pd: Pending)
    requires |c.ranked| > 0 && pd in Continuations(q, c, at, left)
    ensures var best := c.ranked[0];
            var plan := AnchorPlan(q, c.ordered, best.chunkIndex, best.text);
            && Anchoring(q, c).Some? && plan.Some? && pd.left == left
            && pd.span == if pd.above then Span(left, plan.value.top, plan.value.low)
                          else Span(left, plan.value.high, plan.value.bottom)
  {
  }

  lemma {:induction false} ContinuationVisible(q: Query, cs: seq<Candidate>, p: Pack, k: nat)
    requires GoodCandidates(cs) && BlankIsNothing(q) && Homed(q, cs, p) && k < |p.pending|
    ensures VisibleContinuation(cs, p.pending[k])
  {
    var pd := p.pending[k];
    ContinuationAdjacent(q, cs, p, k);
    assert pd.span.lo < pd.span.hi;
    assert ContinuationHomed(q, cs, p, pd);
    var c := cs[pd.left];
    SpanOfContinuation(q, c, pd.at, pd.left, pd);
    var plan := AnchorPlan(q, c.ordered, c.ranked[0].chunkIndex, c.ranked[0].text).value;
    ContinuationsEndVisibly(q, c.ordered, c.ranked[0].chunkIndex, c.ranked[0].text, plan);
  }

  lemma AdmitCloses(q: Query, cs: seq<Candidate>, cost: Entry -> int, budget: int, used: int)
    requires GoodCandidates(cs) && BlankIsNothing(q)
    ensures ClosedTouched(cs, AdmitAll(q, cs, cost, budget, used))
    ensures PendingVisible(cs, AdmitAll(q, cs, cost, budget, used))
  {
    AdmitAllHomed(q, cs, cost, budget, used);
    var p := AdmitAll(q, cs, cost, budget, used);
    forall s, e | 0 <= s < |cs| && e in cs[s].ranked && !Open(p, s, e)
      ensures Touched(cs, p, s, e)
    {
      var i :| 0 <= i < |p.selected| && p.spans[i].src == s;
      assert OfferHomed(q, cs, p, i);
      OfferTouches(q, cs, s, e);
    }
    forall k | 0 <= k < |p.pending|
      ensures VisibleContinuation(cs, p.pending[k])
    {
      ContinuationVisible(q, cs, p, k);
    }
  }

  // ---------- continuations keep it ----------

  lemma TouchedStays(cs: seq<Candidate>, cost: Entry -> int, budget: int, p: Pack, pd: Pending, s: nat, e: Entry)
    requires Shaped(p) && InRange(pd, p) && Adjacent(cs, p, pd) && SelectedShow(cs, p)
    requires s < |cs| && Touched(cs, p, s, e)
    ensures Touched(cs, Extend(pd, cost, budget, p), s, e)
  {
    var r := Extend(pd, cost, budget, p);
    var i :| 0 <= i < |p.spans| && !Apart(ChunkSpan(s, cs[s], e.chunkIndex), p.spans[i]);
    assert EntryShows(cs, p.selected[pd.at], p.spans[pd.at]);
    assert r.spans[i].src == p.spans[i].src && r.spans[i].lo <= p.spans[i].lo && p.spans[i].hi <= r.spans[i].hi;
    assert !Apart(ChunkSpan(s, cs[s], e.chunkIndex), r.spans[i]);
  }

  lemma GrownTouches(cs: seq<Candidate>, p: Pack, pd: Pending, e: Entry)
    requires GoodCandidates(cs) && Shaped(p) && InRange(pd, p) && Adjacent(cs, p, pd) && SelectedShow(cs, p)
    requires VisibleContinuation(cs, pd) && IsChunkOf(cs[pd.left], e) && e.chunkIndex in pd.chunks
    ensures !Apart(ChunkSpan(pd.left, cs[pd.left], e.chunkIndex), GrownSpan(p.spans[pd.at], pd))
  {
    RunTouches(cs, pd.left, e, pd.span.lo, pd.span.hi);
    assert EntryShows(cs, p.selected[pd.at], p.spans[pd.at]);
  }

  lemma ExtendCloses(cs: seq<Candidate>, cost: Entry -> int, budget: int, p: Pack, pd: Pending)
    requires GoodCandidates(cs) && Shaped(p) && |p.leftovers| == |cs| && InRange(pd, p)
    requires Adjacent(cs, p, pd) && SelectedShow(cs, p) && VisibleContinuation(cs, pd) && ClosedTouched(cs, p)
    ensures ClosedTouched(cs, Extend(pd, cost, budget, p))
  {
    var r := Extend(pd, cost, budget, p);
    forall s, e | 0 <= s < |cs| && e in cs[s].ranked && !Open(r, s, e)
      ensures Touched(cs, r, s, e)
    {
      if !Open(p, s, e) {
        TouchedStays(cs, cost, budget, p, pd, s, e);
      } else {
        assert s == pd.left && e.chunkIndex in pd.chunks;
        assert IsChunkOf(cs[s], e);
        GrownTouches(cs, p, pd, e);
        assert r.spans[pd.at] == GrownSpan(p.spans[pd.at], pd);
      }
    }
  }

  lemma ExtendAllCloses(cs: seq<Candidate>, cost: Entry -> int, budget: int, p: Pack)
    requires GoodCandidates(cs) && LinesInv(cs, p, 0) && ClosedTouched(cs, p) && PendingVisible(cs, p)
    ensures var r := ExtendAll(p.pending, cost, budget, p); LinesInv(cs, r, |p.pending|) && ClosedTouched(cs, r)
  {
    var inv := (r: Pack, k: nat) => LinesInv(cs, r, k) && ClosedTouched(cs, r);
    forall r, k: nat | inv(r, k) && Shaped(r) && r.pending == p.pending && k < |p.pending|
      ensures inv(Extend(p.pending[k], cost, budget, r), k + 1)
    {
      ExtendKeepsLines(cs, cost, budget, r, k);
      assert Adjacent(cs, r, p.pending[k]) && VisibleContinuation(cs, p.pending[k]);
      ExtendCloses(cs, cost, budget, r, p.pending[k]);
    }
    assert p.pending[0..] == p.pending;
    ExtendInduction(inv, 0, cost, budget, p);
  }

  // ---------- main result ----------

  /** An open chunk is taken by the fill, and then shown, or overflows the budget at the end. */
  lemma OpenIsDecided(cs: seq<Candidate>, cost: Entry -> int, budget: int, p: Pack, s: nat, e: Entry)
    requires GoodCandidates(cs) && Positive(cost) && s < |cs| && e in cs[s].ranked
    requires |p.spans| == |p.selected| && |p.leftovers| == |cs| && Open(p, s, e)
    ensures var r := Fill(cs, Sort(Remaining(p.leftovers), ByFill), cost, budget, p);
            Touched(cs, r, s, e) || r.used + cost(e) > budget
  {
    var order := Sort(Remaining(p.leftovers), ByFill);
    RemainingMembers(p.leftovers, e);
    SortMembers(Remaining(p.leftovers), ByFill, e);
    var i :| 0 <= i < |order| && order[i] == e;
    FillIsGreedy(order, i, cost, budget, p.used);
    SpentIsTotal(order, cost, budget, p.used);
    var taken := Taken(order, cost, budget, p.used);
    if e in taken {
      var j :| 0 <= j < |taken| && taken[j] == e;
      TakenIsShown(cs, p.spans, taken, j, s);
    }
  }

  lemma TakenIsShown(cs: seq<Candidate>, spans: seq<Span>, taken: seq<Entry>, j: nat, s: nat)
    requires GoodCandidates(cs) && s < |cs| && j < |taken| && taken[j] in cs[s].ranked
    ensures exists i :: 0 <= i < |spans + EntrySpans(cs, taken)|
              && !Apart(ChunkSpan(s, cs[s], taken[j].chunkIndex), (spans + EntrySpans(cs, taken))[i])
  {
    var e := taken[j];
    assert IsChunkOf(cs[s], e);
    SourceOfRank(cs, s);
    ChunkShows(cs, s, e);
    assert (spans + EntrySpans(cs, taken))[|spans| + j] == EntrySpan(cs, e) == ChunkSpan(s, cs[s], e.chunkIndex);
  }

  /** For sources whose chunk indexes are distinct: every chunk of every source is shown, at least one line of it,
      or would overflow the budget. (The shown lines are those of the spans of `NoLineShownTwice`.) */
  lemma UnshownOverflows(q: Query, sources: seq<Source>, cost: Entry -> int, budget: int, used: int, s: nat, e: Entry)
    requires DistinctSources(sources) && BlankIsNothing(q) && Positive(cost)
    requires s < |Collect(q, sources)| && e in Collect(q, sources)[s].ranked
    ensures var cs := Collect(q, sources);
            && Presentable(cs)
            && var p := PackAll(q, cs, cost, budget, used);
            Touched(cs, p, s, e) || p.used + cost(e) > budget
  {
    CollectPresentable(q, sources);
    CollectIsGood(q, sources);
    PackTouches(q, Collect(q, sources), cost, budget, used, s, e);
  }

  lemma PackTouches(q: Query, cs: seq<Candidate>, cost: Entry -> int, budget: int, used: int, s: nat, e: Entry)
    requires GoodCandidates(cs) && BlankIsNothing(q) && Positive(cost)
    requires s < |cs| && e in cs[s].ranked
    ensures var p := PackAll(q, cs, cost, budget, used);
            Touched(cs, p, s, e) || p.used + cost(e) > budget
  {
    AdmitAllShaped(q, cs, cost, budget, used);
    var admitted := AdmitAll(q, cs, cost, budget, used);
    AdmitEstablishes(q, cs, cost, budget, used);
    AdmitCloses(q, cs, cost, budget, used);
    ExtendAllCloses(cs, cost, budget, admitted);
    var p := ExtendAll(admitted.pending, cost, budget, admitted);
    if Open(p, s, e) {
      OpenIsDecided(cs, cost, budget, p, s, e);
    } else {
      assert Touched(cs, p, s, e);
      TouchedAfterFill(cs, cost, budget, p, Sort(Remaining(p.leftovers), ByFill), s, e);
    }
  }

  lemma TouchedAfterFill(cs: seq<Candidate>, cost: Entry -> int, budget: int, p: Pack, order: seq<Entry>, s: nat, e: Entry)
    requires s < |cs| && Touched(cs, p, s, e)
    ensures Touched(cs, Fill(cs, order, cost, budget, p), s, e)
  {
    var i :| 0 <= i < |p.spans| && !Apart(ChunkSpan(s, cs[s], e.chunkIndex), p.spans[i]);
    var r := Fill(cs, order, cost, budget, p);
    assert r.spans[i] == p.spans[i];
  }
}
