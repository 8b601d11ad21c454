/** Budgeted excerpt selection in three phases over one running `used` total: a guaranteed entry per
    source, continuations charged as the growth of an entry's cost, then a global greedy fill. */
module Packer {
  import opened Text
  import opened Anchor
  import opened Wrappers

  datatype Entry = Entry(
    negScore: int, rank: int, chunkIndex: int, sessionId: string, date: string, text: string)

  /** One item of a retrieval result's source list with its session label and readable chunks in store order;
      items that are not objects are skipped but keep their rank. */
  datatype Source = Malformed | Source(sessionId: string, date: string, chunks: seq<Chunk>)

  /** A source with something to show: its entries best first, its chunks in session order. */
  datatype Candidate = Candidate(rank: int, ranked: seq<Entry>, ordered: seq<Chunk>)

  /** Lines [lo, hi) of the stream of candidate `src`. Selection never reads spans: they only record which
      lines an entry shows. */
  datatype Span = Span(src: nat, lo: nat, hi: nat)

  datatype Leftover = Leftover(entries: seq<Entry>, covered: set<int>)

  datatype Pending = Pending(at: nat, left: nat, text: string, chunks: set<int>, above: bool, span: Span)

  datatype Pack = Pack(
    selected: seq<Entry>, spans: seq<Span>, leftovers: seq<Leftover>, pending: seq<Pending>, used: int)

  // ---------- orderings ----------

  predicate ByIndex(a: Chunk, b: Chunk) {
    a.index <= b.index
  }

  /** Best score first, then position. */
  predicate ByScore(a: Entry, b: Entry) {
    a.negScore < b.negScore || (a.negScore == b.negScore && a.chunkIndex <= b.chunkIndex)
  }

  /** The fill order: score, source rank, position. */
  predicate ByFill(a: Entry, b: Entry) {
    || a.negScore < b.negScore
    || (a.negScore == b.negScore && (a.rank < b.rank || (a.rank == b.rank && a.chunkIndex <= b.chunkIndex)))
  }

  /** The rendering order: session date, source rank, position. */
  predicate ByDate(a: Entry, b: Entry) {
    && LexLe(a.date, b.date)
    && (a.date == b.date ==> a.rank < b.rank || (a.rank == b.rank && a.chunkIndex <= b.chunkIndex))
  }

  // ---------- candidates ----------

  function Kept(chunks: seq<Chunk>): (r: seq<Chunk>)
    ensures |r| <= |chunks|
  {
    if |chunks| == 0 then []
    else
      var n := |chunks| - 1;
      if Strip(chunks[n].text) == "" then Kept(chunks[..n]) else Kept(chunks[..n]) + [chunks[n]]
  }

  function EntryOf(q: Query, rank: int, s: Source, c: Chunk): Entry
    requires s.Source?
  {
    Entry(-(q.chunkScore(c.text) as int), rank, c.index, s.sessionId, s.date, c.text)
  }

  function EntriesOf(q: Query, rank: int, s: Source, chunks: seq<Chunk>): (r: seq<Entry>)
    requires s.Source?
    ensures |r| == |chunks|
  {
    seq(|chunks|, i requires 0 <= i < |chunks| => EntryOf(q, rank, s, chunks[i]))
  }

  function CandidateOf(q: Query, rank: int, s: Source): Candidate
    requires s.Source?
  {
    Candidate(rank, Sort(EntriesOf(q, rank, s, Kept(s.chunks)), ByScore), Sort(Kept(s.chunks), ByIndex))
  }

  function Collect(q: Query, sources: seq<Source>): seq<Candidate> {
    if |sources| == 0 then []
    else
      var n := |sources| - 1;
      var s := sources[n];
      if s.Malformed? || Kept(s.chunks) == [] then Collect(q, sources[..n])
      else Collect(q, sources[..n]) + [CandidateOf(q, n, s)]
  }

  // ---------- pass 1: one guaranteed entry per source ----------

  function Anchoring(q: Query, c: Candidate): Option<Anchored>
    requires |c.ranked| > 0
  {
    AnchoredExcerpt(q, c.ordered, c.ranked[0].chunkIndex, c.ranked[0].text)
  }

  function Offer(q: Query, c: Candidate): Entry
    requires |c.ranked| > 0
  {
    match Anchoring(q, c)
    case None => c.ranked[0]
    case Some(a) => c.ranked[0].(chunkIndex := a.chunkIndex, text := a.text)
  }

  /** Position of the chunk with the given index in session order. */
  function PlaceOf(ordered: seq<Chunk>, index: int): (k: nat)
    ensures k <= |ordered|
    ensures forall j :: 0 <= j < k ==> ordered[j].index != index
    ensures k < |ordered| ==> ordered[k].index == index
  {
    if |ordered| == 0 || ordered[0].index == index then 0 else 1 + PlaceOf(ordered[1..], index)
  }

  function ChunkSpan(src: nat, c: Candidate, index: int): Span {
    var k := PlaceOf(c.ordered, index);
    if k < |c.ordered| then Span(src, BodyStart(c.ordered, k), BodyEnd(c.ordered, k)) else Span(src, 0, 0)
  }

  function OfferSpan(q: Query, c: Candidate, src: nat): Span
    requires |c.ranked| > 0
  {
    if Anchoring(q, c).None? then ChunkSpan(src, c, c.ranked[0].chunkIndex)
    else
      var p := AnchorPlan(q, c.ordered, c.ranked[0].chunkIndex, c.ranked[0].text).value;
      Span(src, p.low, p.high)
  }

  /** The downward continuation of an excerpt and then the upward one, those that have text. */
  function ContinuationsFrom(a: Anchored, p: Plan, at: nat, left: nat): seq<Pending> {
    (if a.extensionText == "" then []
     else [Pending(at, left, a.extensionText, a.extensionChunks, false, Span(left, p.high, p.bottom))])
    + (if a.upwardText == "" then []
       else [Pending(at, left, a.upwardText, a.upwardChunks, true, Span(left, p.top, p.low))])
  }

  function Continuations(q: Query, c: Candidate, at: nat, left: nat): seq<Pending>
    requires |c.ranked| > 0
  {
    match Anchoring(q, c)
    case None => []
    case Some(a) =>
      var p := AnchorPlan(q, c.ordered, c.ranked[0].chunkIndex, c.ranked[0].text).value;
      ContinuationsFrom(a, p, at, left)
  }

  function LeftoverOf(q: Query, c: Candidate): Leftover
    requires |c.ranked| > 0
  {
    match Anchoring(q, c)
    case None => Leftover(c.ranked[1..], {})
    case Some(a) => Leftover(c.ranked, a.covered)
  }

  function Admit(q: Query, c: Candidate, cost: Entry -> int, budget: int, p: Pack): Pack
    requires |c.ranked| > 0
  {
    var e := Offer(q, c);
    var left := |p.leftovers|;
    if p.used + cost(e) <= budget then
      Pack(p.selected + [e], p.spans + [OfferSpan(q, c, left)], p.leftovers + [LeftoverOf(q, c)],
           p.pending + Continuations(q, c, |p.selected|, left), p.used + cost(e))
    else
      p.(leftovers := p.leftovers + [Leftover(c.ranked, {})])
  }

  predicate Presentable(cs: seq<Candidate>) {
    forall i :: 0 <= i < |cs| ==> |cs[i].ranked| > 0
  }

  function AdmitAll(q: Query, cs: seq<Candidate>, cost: Entry -> int, budget: int, used: int): Pack
    requires Presentable(cs)
  {
    if |cs| == 0 then Pack([], [], [], [], used)
    else
      var n := |cs| - 1;
      Admit(q, cs[n], cost, budget, AdmitAll(q, cs[..n], cost, budget, used))
  }

  // ---------- continuations ----------

  predicate InRange(pd: Pending, p: Pack) {
    pd.at < |p.selected| && pd.left < |p.leftovers|
  }

  predicate AllInRange(pds: seq<Pending>, p: Pack) {
    |p.spans| == |p.selected| && forall i :: 0 <= i < |pds| ==> InRange(pds[i], p)
  }

  predicate Shaped(p: Pack) {
    AllInRange(p.pending, p)
  }

  function Grown(e: Entry, pd: Pending): Entry {
    e.(text := if pd.above then pd.text + "\n" + e.text else e.text + "\n" + pd.text)
  }

  function GrownSpan(s: Span, pd: Pending): Span {
    if pd.above then s.(lo := pd.span.lo) else s.(hi := pd.span.hi)
  }

  /** Apply a continuation if the entry's cost increase still fits. */
  function Extend(pd: Pending, cost: Entry -> int, budget: int, p: Pack): Pack
    requires InRange(pd, p) && |p.spans| == |p.selected|
  {
    var current := p.selected[pd.at];
    var grown := Grown(current, pd);
    var extra := cost(grown) - cost(current);
    if p.used + extra > budget then p
    else
      var l := p.leftovers[pd.left];
      p.(selected := p.selected[pd.at := grown],
         spans := p.spans[pd.at := GrownSpan(p.spans[pd.at], pd)],
         leftovers := p.leftovers[pd.left := l.(covered := l.covered + pd.chunks)],
         used := p.used + extra)
  }

  function ExtendAll(pds: seq<Pending>, cost: Entry -> int, budget: int, p: Pack): Pack
    requires AllInRange(pds, p)
    decreases |pds|
  {
    if |pds| == 0 then p else ExtendAll(pds[1..], cost, budget, Extend(pds[0], cost, budget, p))
  }

  /** What one applied or refused continuation keeps, the whole phase keeps. */
  lemma {:induction false} ExtendInduction(inv: (Pack, nat) -> bool, k: nat, cost: Entry -> int, budget: int, p: Pack)
    requires Shaped(p) && k <= |p.pending| && inv(p, k)
    requires forall r, i: nat :: inv(r, i) && Shaped(r) && r.pending == p.pending && i < |p.pending| ==>
               inv(Extend(p.pending[i], cost, budget, r), i + 1)
    ensures inv(ExtendAll(p.pending[k..], cost, budget, p), |p.pending|)
    ensures ExtendAll(p.pending[k..], cost, budget, p).pending == p.pending
    decreases |p.pending| - k
  {
    if k < |p.pending| {
      assert p.pending[k..][1..] == p.pending[k + 1..];
      var r := Extend(p.pending[k], cost, budget, p);
      assert inv(r, k + 1);
      ExtendInduction(inv, k + 1, cost, budget, r);
    }
  }

  // ---------- pass 2: greedy fill ----------

  /** The entries of a source that are not shown yet. */
  function Unshown(entries: seq<Entry>, covered: set<int>): seq<Entry> {
    if |entries| == 0 then []
    else
      var n := |entries| - 1;
      Unshown(entries[..n], covered) + (if entries[n].chunkIndex in covered then [] else [entries[n]])
  }

  function Remaining(leftovers: seq<Leftover>): seq<Entry> {
    if |leftovers| == 0 then []
    else
      var n := |leftovers| - 1;
      Remaining(leftovers[..n]) + Unshown(leftovers[n].entries, leftovers[n].covered)
  }

  /** The candidate an entry belongs to, found by its rank. */
  function SourceOf(cs: seq<Candidate>, rank: int): (s: nat)
    ensures s <= |cs|
    ensures s < |cs| ==> cs[s].rank == rank
    ensures forall j :: 0 <= j < s ==> cs[j].rank != rank
  {
    if |cs| == 0 || cs[0].rank == rank then 0 else 1 + SourceOf(cs[1..], rank)
  }

  function EntrySpan(cs: seq<Candidate>, e: Entry): Span {
    var s := SourceOf(cs, e.rank);
    if s < |cs| then ChunkSpan(s, cs[s], e.chunkIndex) else Span(s, 0, 0)
  }

  /** The entries taken in order, each if it still fits on top of the ones taken before it. */
  function Taken(entries: seq<Entry>, cost: Entry -> int, budget: int, used: int): seq<Entry> {
    if |entries| == 0 then []
    else
      var n := |entries| - 1;
      var before := Taken(entries[..n], cost, budget, used);
      if Spent(entries[..n], cost, budget, used) + cost(entries[n]) > budget then before else before + [entries[n]]
  }

  function Spent(entries: seq<Entry>, cost: Entry -> int, budget: int, used: int): int {
    if |entries| == 0 then used
    else
      var n := |entries| - 1;
      var before := Spent(entries[..n], cost, budget, used);
      if before + cost(entries[n]) > budget then before else before + cost(entries[n])
  }

  function EntrySpans(cs: seq<Candidate>, es: seq<Entry>): (r: seq<Span>)
    ensures |r| == |es|
  {
    seq(|es|, i requires 0 <= i < |es| => EntrySpan(cs, es[i]))
  }

  function Fill(cs: seq<Candidate>, entries: seq<Entry>, cost: Entry -> int, budget: int, p: Pack): Pack {
    var taken := Taken(entries, cost, budget, p.used);
    p.(selected := p.selected + taken,
       spans := p.spans + EntrySpans(cs, taken),
       used := Spent(entries, cost, budget, p.used))
  }

  // ---------- the whole selection ----------

  lemma CandidateIsPresentable(q: Query, rank: int, s: Source)
    requires s.Source? && Kept(s.chunks) != []
    ensures |CandidateOf(q, rank, s).ranked| > 0
  {
    SortPermutes(EntriesOf(q, rank, s, Kept(s.chunks)), ByScore);
  }

  lemma {:induction false} CollectPresentable(q: Query, sources: seq<Source>)
    ensures Presentable(Collect(q, sources))
    ensures forall i :: 0 <= i < |Collect(q, sources)| ==> 0 <= Collect(q, sources)[i].rank < |sources|
  {
    if |sources| > 0 {
      var n := |sources| - 1;
      CollectPresentable(q, sources[..n]);
      if sources[n].Source? && Kept(sources[n].chunks) != [] {
        CandidateIsPresentable(q, n, sources[n]);
      }
    }
  }

  lemma {:induction false} AdmitAllShaped(q: Query, cs: seq<Candidate>, cost: Entry -> int, budget: int, used: int)
    requires Presentable(cs)
    ensures Shaped(AdmitAll(q, cs, cost, budget, used))
    ensures |AdmitAll(q, cs, cost, budget, used).leftovers| == |cs|
  {
    if |cs| > 0 {
      AdmitAllShaped(q, cs[..|cs| - 1], cost, budget, used);
    }
  }

  function PackAll(q: Query, cs: seq<Candidate>, cost: Entry -> int, budget: int, used: int): Pack
    requires Presentable(cs)
  {
    AdmitAllShaped(q, cs, cost, budget, used);
    var admitted := AdmitAll(q, cs, cost, budget, used);
    var extended := ExtendAll(admitted.pending, cost, budget, admitted);
    Fill(cs, Sort(Remaining(extended.leftovers), ByFill), cost, budget, extended)
  }

  function Select(q: Query, sources: seq<Source>, cost: Entry -> int, budget: int, used: int): seq<Entry> {
    CollectPresentable(q, sources);
    Sort(PackAll(q, Collect(q, sources), cost, budget, used).selected, ByDate)
  }

  // ---------- the code ----------

  method ReadChunks(q: Query, rank: nat, s: Source) returns (entries: seq<Entry>, ordered: seq<Chunk>)
    requires s.Source?
    ensures ordered == Kept(s.chunks) && entries == EntriesOf(q, rank, s, ordered)
  {
    entries, ordered := [], [];
    for i := 0 to |s.chunks|
      invariant ordered == Kept(s.chunks[..i]) && entries == EntriesOf(q, rank, s, ordered)
    {
      assert s.chunks[..i + 1][..i] == s.chunks[..i];
      var c := s.chunks[i];
      if Strip(c.text) != "" {
        entries := entries + [EntryOf(q, rank, s, c)];
        ordered := ordered + [c];
      }
    }
    assert s.chunks[..|s.chunks|] == s.chunks;
  }

  method CollectCandidates(q: Query, sources: seq<Source>) returns (cs: seq<Candidate>)
    ensures cs == Collect(q, sources)
  {
    cs := [];
    for rank := 0 to |sources|
      invariant cs == Collect(q, sources[..rank])
    {
      assert sources[..rank + 1][..rank] == sources[..rank];
      if sources[rank].Source? {
        var entries, ordered := ReadChunks(q, rank, sources[rank]);
        if |entries| > 0 {
          cs := cs + [Candidate(rank, Sort(entries, ByScore), Sort(ordered, ByIndex))];
        }
      }
    }
    assert sources[..|sources|] == sources;
  }

  method SelectExcerpts(q: Query, sources: seq<Source>, cost: Entry -> int, budget: int, used0: int)
    returns (selected: seq<Entry>)
    ensures selected == Select(q, sources, cost, budget, used0)
  {
    var cs := CollectCandidates(q, sources);
    CollectPresentable(q, sources);
    AdmitAllShaped(q, cs, cost, budget, used0);
    ghost var admitted := AdmitAll(q, cs, cost, budget, used0);
    var leftovers, pending, used;
    selected, leftovers, pending, used := GuaranteePass(q, cs, cost, budget, used0);
    selected, leftovers, used := ExtensionPass(cost, budget, admitted, selected, leftovers, pending, used);
    var remaining := CollectRemaining(leftovers);
    var more := FillPass(Sort(remaining, ByFill), cost, budget, used);
    selected := Sort(selected + more, ByDate);
  }

  method CollectRemaining(leftovers: seq<Leftover>) returns (remaining: seq<Entry>)
    ensures remaining == Remaining(leftovers)
  {
    remaining := [];
    for i := 0 to |leftovers|
      invariant remaining == Remaining(leftovers[..i])
    {
      assert leftovers[..i + 1][..i] == leftovers[..i];
      remaining := remaining + Unshown(leftovers[i].entries, leftovers[i].covered);
    }
    assert leftovers[..|leftovers|] == leftovers;
  }

  method FillPass(remaining: seq<Entry>, cost: Entry -> int, budget: int, used0: int) returns (more: seq<Entry>)
    ensures more == Taken(remaining, cost, budget, used0)
  {
    more := [];
    var used := used0;
    for i := 0 to |remaining|
      invariant more == Taken(remaining[..i], cost, budget, used0)
      invariant used == Spent(remaining[..i], cost, budget, used0)
    {
      assert remaining[..i + 1][..i] == remaining[..i];
      var c := cost(remaining[i]);
      if used + c <= budget {
        more := more + [remaining[i]];
        used := used + c;
      }
    }
    assert remaining[..|remaining|] == remaining;
  }

  method GuaranteePass(q: Query, cs: seq<Candidate>, cost: Entry -> int, budget: int, used0: int)
    returns (selected: seq<Entry>, leftovers: seq<Leftover>, pending: seq<Pending>, used: int)
    requires Presentable(cs)
    ensures var p := AdmitAll(q, cs, cost, budget, used0);
            selected == p.selected && leftovers == p.leftovers && pending == p.pending && used == p.used
  {
    selected, leftovers, pending, used := [], [], [], used0;
    for i := 0 to |cs|
      invariant var p := AdmitAll(q, cs[..i], cost, budget, used0);
                selected == p.selected && leftovers == p.leftovers && pending == p.pending && used == p.used
    {
      assert cs[..i + 1][..i] == cs[..i];
      var entry, shown, more := MakeOffer(q, cs[i], |selected|, |leftovers|);
      var c := cost(entry);
      if used + c <= budget {
        selected := selected + [entry];
        used := used + c;
        leftovers := leftovers + [shown];
        pending := pending + more;
      } else {
        leftovers := leftovers + [Leftover(cs[i].ranked, {})];
      }
    }
    assert cs[..|cs|] == cs;
  }

  /** A source's guaranteed entry, and what is left and still to be continued if it is admitted. */
  method MakeOffer(q: Query, c: Candidate, at: nat, left: nat)
    returns (entry: Entry, shown: Leftover, more: seq<Pending>)
    requires |c.ranked| > 0
    ensures entry == Offer(q, c) && shown == LeftoverOf(q, c) && more == Continuations(q, c, at, left)
  {
    var best := c.ranked[0];
    var anchored := QueryAnchoredExcerpt(q, c.ordered, best.chunkIndex, best.text);
    if anchored.None? {
      return best, Leftover(c.ranked[1..], {}), [];
    }
    var a := anchored.value;
    var plan := AnchorPlan(q, c.ordered, best.chunkIndex, best.text).value;
    entry := best.(chunkIndex := a.chunkIndex, text := a.text);
    shown := Leftover(c.ranked, a.covered);
    more := ListContinuations(a, plan, at, left);
  }

  method ListContinuations(a: Anchored, p: Plan, at: nat, left: nat) returns (more: seq<Pending>)
    ensures more == ContinuationsFrom(a, p, at, left)
  {
    more := [];
    if a.extensionText != "" {
      more := more + [Pending(at, left, a.extensionText, a.extensionChunks, false, Span(left, p.high, p.bottom))];
    }
    if a.upwardText != "" {
      more := more + [Pending(at, left, a.upwardText, a.upwardChunks, true, Span(left, p.top, p.low))];
    }
  }

  method ExtensionPass(cost: Entry -> int, budget: int, ghost p: Pack,
                       selected0: seq<Entry>, leftovers0: seq<Leftover>, pending: seq<Pending>, used0: int)
    returns (selected: seq<Entry>, leftovers: seq<Leftover>, used: int)
    requires Shaped(p)
    requires selected0 == p.selected && leftovers0 == p.leftovers && pending == p.pending && used0 == p.used
    ensures var r := ExtendAll(p.pending, cost, budget, p);
            selected == r.selected && leftovers == r.leftovers && used == r.used
  {
    selected, leftovers, used := selected0, leftovers0, used0;
    ghost var r := p;
    for i := 0 to |pending|
      invariant AllInRange(pending, r)
      invariant ExtendAll(pending[i..], cost, budget, r) == ExtendAll(pending, cost, budget, p)
      invariant selected == r.selected && leftovers == r.leftovers && used == r.used
    {
      selected, leftovers, used := ApplyContinuation(pending[i], cost, budget, r, selected, leftovers, used);
      assert pending[i..][1..] == pending[i + 1..];
      r := Extend(pending[i], cost, budget, r);
    }
  }

  method ApplyContinuation(pd: Pending, cost: Entry -> int, budget: int, ghost p: Pack,
                           selected0: seq<Entry>, leftovers0: seq<Leftover>, used0: int)
    returns (selected: seq<Entry>, leftovers: seq<Leftover>, used: int)
    requires InRange(pd, p) && |p.spans| == |p.selected|
    requires selected0 == p.selected && leftovers0 == p.leftovers && used0 == p.used
    ensures var r := Extend(pd, cost, budget, p);
            selected == r.selected && leftovers == r.leftovers && used == r.used
  {
    selected, leftovers, used := selected0, leftovers0, used0;
    var current := selected[pd.at];
    var grown := current.(text := if pd.above then pd.text + "\n" + current.text else current.text + "\n" + pd.text);
    var extra := cost(grown) - cost(current);
    if used + extra <= budget {
      selected := selected[pd.at := grown];
      used := used + extra;
      var l := leftovers[pd.left];
      leftovers := leftovers[pd.left := Leftover(l.entries, l.covered + pd.chunks)];
    }
  }
}
