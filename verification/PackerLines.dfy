/** No line of a session is rendered twice: every selected entry shows a run of its session's lines, and
    the runs of different entries never share a line. */
module PackerLines {
  import opened Text
  import opened Anchor
  import opened AnchorWindow
  import opened Packer
  import opened PackerBudget

  // ---------- candidates with distinct chunk indexes ----------

  ghost predicate DistinctChunks(chunks: seq<Chunk>) {
    forall i, j :: 0 <= i < j < |chunks| ==> chunks[i].index != chunks[j].index
  }

  ghost predicate DistinctEntries(es: seq<Entry>) {
    forall i, j :: 0 <= i < j < |es| ==> (es[i].rank, es[i].chunkIndex) != (es[j].rank, es[j].chunkIndex)
  }

  /** The store's chunk indexes are distinct within each source. */
  ghost predicate DistinctSources(sources: seq<Source>) {
    forall r :: 0 <= r < |sources| && sources[r].Source? ==> DistinctChunks(Kept(sources[r].chunks))
  }

  ghost predicate IsChunkOf(c: Candidate, e: Entry) {
    && e.rank == c.rank
    && Chunk(e.chunkIndex, e.text) in c.ordered
  }

  ghost predicate GoodCandidate(c: Candidate) {
    && |c.ranked| > 0
    && (forall e :: e in c.ranked ==> IsChunkOf(c, e))
    && DistinctEntries(c.ranked)
    && DistinctChunks(c.ordered)
  }

  ghost predicate GoodCandidates(cs: seq<Candidate>) {
    && (forall s :: 0 <= s < |cs| ==> GoodCandidate(cs[s]))
    && (forall s, t :: 0 <= s < t < |cs| ==> cs[s].rank < cs[t].rank)
  }

  ghost function IndexOf<T>(s: seq<T>, x: T): (i: nat)
    requires x in s
    ensures i < |s| && s[i] == x
  {
    if s[0] == x then 0 else 1 + IndexOf(s[1..], x)
  }

  lemma {:induction false} InsertDistinctChunks(x: Chunk, s: seq<Chunk>)
    requires DistinctChunks(s + [x])
    ensures DistinctChunks(Insert(x, s, ByIndex))
  {
    if |s| > 0 && !ByIndex(s[|s| - 1], x) {
      var n := |s| - 1;
      forall i, j | 0 <= i < j < |s[..n] + [x]|
        ensures (s[..n] + [x])[i].index != (s[..n] + [x])[j].index
      {
        assert (s + [x])[i].index != (s + [x])[if j == n then |s| else j].index;
      }
      InsertDistinctChunks(x, s[..n]);
      InsertPermutes(x, s[..n], ByIndex);
      var r := Insert(x, s[..n], ByIndex);
      forall i | 0 <= i < |r|
        ensures r[i].index != s[n].index
      {
        assert r[i] in multiset(r);
        assert r[i] == x || r[i] in s[..n];
        var j := if r[i] == x then |s| else IndexOf(s[..n], r[i]);
        assert (s + [x])[j] == r[i];
        assert (s + [x])[|s|] == x && (s + [x])[n] == s[n];
      }
    }
  }

  lemma {:induction false} SortDistinctChunks(xs: seq<Chunk>)
    requires DistinctChunks(xs)
    ensures DistinctChunks(Sort(xs, ByIndex))
  {
    if |xs| > 0 {
      var n := |xs| - 1;
      SortDistinctChunks(xs[..n]);
      var s := Sort(xs[..n], ByIndex);
      forall i | 0 <= i < |s|
        ensures s[i].index != xs[n].index
      {
        SortMembers(xs[..n], ByIndex, s[i]);
      }
      InsertDistinctChunks(xs[n], s);
    }
  }

  lemma {:induction false} InsertDistinctEntries(x: Entry, s: seq<Entry>, le: (Entry, Entry) -> bool)
    requires DistinctEntries(s + [x])
    ensures DistinctEntries(Insert(x, s, le))
  {
    if |s| > 0 && !le(s[|s| - 1], x) {
      var n := |s| - 1;
      forall i, j | 0 <= i < j < |s[..n] + [x]|
        ensures ((s[..n] + [x])[i].rank, (s[..n] + [x])[i].chunkIndex) != ((s[..n] + [x])[j].rank, (s[..n] + [x])[j].chunkIndex)
      {
        var k := if j == n then |s| else j;
        assert (s[..n] + [x])[j] == (s + [x])[k] && (s[..n] + [x])[i] == (s + [x])[i];
      }
      InsertDistinctEntries(x, s[..n], le);
      InsertPermutes(x, s[..n], le);
      var r := Insert(x, s[..n], le);
      forall i | 0 <= i < |r|
        ensures (r[i].rank, r[i].chunkIndex) != (s[n].rank, s[n].chunkIndex)
      {
        assert r[i] in multiset(r);
        assert r[i] == x || r[i] in s[..n];
        var j := if r[i] == x then |s| else IndexOf(s[..n], r[i]);
        assert (s + [x])[j] == r[i];
        assert (s + [x])[|s|] == x && (s + [x])[n] == s[n];
      }
    }
  }

  lemma {:induction false} SortDistinctEntries(xs: seq<Entry>, le: (Entry, Entry) -> bool)
    requires DistinctEntries(xs)
    ensures DistinctEntries(Sort(xs, le))
  {
    if |xs| > 0 {
      var n := |xs| - 1;
      SortDistinctEntries(xs[..n], le);
      var s := Sort(xs[..n], le);
      forall i | 0 <= i < |s|
        ensures (s[i].rank, s[i].chunkIndex) != (xs[n].rank, xs[n].chunkIndex)
      {
        SortMembers(xs[..n], le, s[i]);
      }
      InsertDistinctEntries(xs[n], s, le);
    }
  }

  lemma SortedEntryIsChunk(q: Query, rank: int, s: Source, e: Entry)
    requires s.Source? && e in CandidateOf(q, rank, s).ranked
    ensures IsChunkOf(CandidateOf(q, rank, s), e)
  {
    var kept := Kept(s.chunks);
    var entries := EntriesOf(q, rank, s, kept);
    SortMembers(entries, ByScore, e);
    var i := IndexOf(entries, e);
    SortMembers(kept, ByIndex, kept[i]);
  }

  lemma CandidateIsGood(q: Query, rank: int, s: Source)
    requires s.Source? && DistinctChunks(Kept(s.chunks)) && Kept(s.chunks) != []
    ensures GoodCandidate(CandidateOf(q, rank, s))
  {
    var entries := EntriesOf(q, rank, s, Kept(s.chunks));
    SortPermutes(entries, ByScore);
    SortDistinctChunks(Kept(s.chunks));
    assert DistinctEntries(entries);
    SortDistinctEntries(entries, ByScore);
    forall e | e in CandidateOf(q, rank, s).ranked
      ensures IsChunkOf(CandidateOf(q, rank, s), e)
    {
      SortedEntryIsChunk(q, rank, s, e);
    }
  }

  lemma {:induction false} CollectIsGood(q: Query, sources: seq<Source>)
    requires DistinctSources(sources)
    ensures GoodCandidates(Collect(q, sources))
  {
    if |sources| > 0 {
      var n := |sources| - 1;
      CollectIsGood(q, sources[..n]);
      CollectPresentable(q, sources[..n]);
      if sources[n].Source? && Kept(sources[n].chunks) != [] {
        CandidateIsGood(q, n, sources[n]);
      }
    }
  }

  // ---------- what an entry shows ----------

  predicate Apart(a: Span, b: Span) {
    a.src != b.src || a.hi <= b.lo || b.hi <= a.lo
  }

  /** The text is the run [lo, hi) of the lines, with at most one line shortened to a slice of itself. */
  ghost predicate Shows(lines: seq<Line>, lo: nat, hi: nat, text: string) {
    && lo < hi <= |lines|
    && exists at: nat, s: nat, t: nat :: ShowsAt(lines, lo, hi, text, at, s, t)
  }

  predicate ShowsAt(lines: seq<Line>, lo: nat, hi: nat, text: string, at: nat, s: nat, t: nat)
    requires lo < hi <= |lines|
  {
    && lo <= at < hi && s <= t <= |lines[at].text|
    && text == Join("\n", Texts(lines)[lo..hi][at - lo := lines[at].text[s..t]])
  }

  /** An entry belongs to the candidate of its span and shows exactly the span's lines. */
  ghost predicate EntryShows(cs: seq<Candidate>, e: Entry, sp: Span) {
    && sp.src < |cs|
    && e.rank == cs[sp.src].rank
    && Shows(Stream(cs[sp.src].ordered), sp.lo, sp.hi, e.text)
  }

  lemma RunShows(lines: seq<Line>, lo: nat, hi: nat)
    requires lo < hi <= |lines|
    ensures Shows(lines, lo, hi, RunText(lines, lo, hi))
  {
    var run := Texts(lines)[lo..hi];
    assert lines[lo].text[0..|lines[lo].text|] == lines[lo].text == run[0];
    assert run[0 := run[0]] == run;
    assert ShowsAt(lines, lo, hi, RunText(lines, lo, hi), lo, 0, |lines[lo].text|);
  }

  lemma GrowShowsDown(lines: seq<Line>, lo: nat, hi: nat, bottom: nat, text: string)
    requires Shows(lines, lo, hi, text) && hi < bottom <= |lines|
    ensures Shows(lines, lo, bottom, text + "\n" + RunText(lines, hi, bottom))
  {
    var at: nat, s: nat, t: nat :| ShowsAt(lines, lo, hi, text, at, s, t);
    var shown := Texts(lines)[lo..hi][at - lo := lines[at].text[s..t]];
    JoinConcat("\n", shown, Texts(lines)[hi..bottom]);
    assert shown + Texts(lines)[hi..bottom] == Texts(lines)[lo..bottom][at - lo := lines[at].text[s..t]];
    assert ShowsAt(lines, lo, bottom, text + "\n" + RunText(lines, hi, bottom), at, s, t);
  }

  lemma GrowShowsUp(lines: seq<Line>, top: nat, lo: nat, hi: nat, text: string)
    requires Shows(lines, lo, hi, text) && top < lo
    ensures Shows(lines, top, hi, RunText(lines, top, lo) + "\n" + text)
  {
    var at: nat, s: nat, t: nat :| ShowsAt(lines, lo, hi, text, at, s, t);
    var shown := Texts(lines)[lo..hi][at - lo := lines[at].text[s..t]];
    JoinConcat("\n", Texts(lines)[top..lo], shown);
    assert Texts(lines)[top..lo] + shown == Texts(lines)[top..hi][at - top := lines[at].text[s..t]];
    assert ShowsAt(lines, top, hi, RunText(lines, top, lo) + "\n" + text, at, s, t);
  }

  // ---------- chunks of a candidate ----------

  /** A chunk's span holds lines of the chunk only, and joins to the chunk's text. */
  lemma ChunkShows(cs: seq<Candidate>, s: nat, e: Entry)
    requires GoodCandidates(cs) && s < |cs| && IsChunkOf(cs[s], e)
    ensures EntryShows(cs, e, ChunkSpan(s, cs[s], e.chunkIndex))
    ensures var sp := ChunkSpan(s, cs[s], e.chunkIndex);
            sp.src == s
            && forall i :: sp.lo <= i < sp.hi ==> Stream(cs[s].ordered)[i].chunk == e.chunkIndex
  {
    var ordered := cs[s].ordered;
    var k := PlaceOf(ordered, e.chunkIndex);
    var j :| 0 <= j < |ordered| && ordered[j] == Chunk(e.chunkIndex, e.text);
    assert k == j;
    BodyIsChunk(ordered, k);
    RunShows(Stream(ordered), BodyStart(ordered, k), BodyEnd(ordered, k));
  }

  lemma ChunksApart(cs: seq<Candidate>, s: nat, e: Entry, f: Entry)
    requires GoodCandidates(cs) && s < |cs| && IsChunkOf(cs[s], e) && IsChunkOf(cs[s], f)
    requires e.chunkIndex != f.chunkIndex
    ensures Apart(ChunkSpan(s, cs[s], e.chunkIndex), ChunkSpan(s, cs[s], f.chunkIndex))
  {
    var ordered := cs[s].ordered;
    var j, k := PlaceOf(ordered, e.chunkIndex), PlaceOf(ordered, f.chunkIndex);
    ChunkShows(cs, s, e);
    ChunkShows(cs, s, f);
    if j < k {
      BodiesAreDisjoint(ordered, j, k);
    } else if k < j {
      BodiesAreDisjoint(ordered, k, j);
    }
  }

  /** Lines whose chunks are covered share nothing with a chunk that is not covered. */
  lemma CoveredApart(cs: seq<Candidate>, s: nat, e: Entry, lo: nat, hi: nat)
    requires GoodCandidates(cs) && s < |cs| && IsChunkOf(cs[s], e)
    requires lo < hi <= |Stream(cs[s].ordered)|
    requires e.chunkIndex !in RunChunks(Stream(cs[s].ordered), lo, hi)
    ensures Apart(ChunkSpan(s, cs[s], e.chunkIndex), Span(s, lo, hi))
  {
    ChunkShows(cs, s, e);
    var sp := ChunkSpan(s, cs[s], e.chunkIndex);
    var lines := Stream(cs[s].ordered);
    assert forall i :: lo <= i < hi ==> lines[i].chunk in RunChunks(lines, lo, hi);
    assert lines[lo].chunk != e.chunkIndex && lines[sp.lo].chunk == e.chunkIndex;
  }

  // ---------- the invariant of the first two phases ----------

  /** Entries of source s that pass 2 may still show. */
  predicate Open(p: Pack, s: nat, e: Entry) {
    s < |p.leftovers| && e in p.leftovers[s].entries && e.chunkIndex !in p.leftovers[s].covered
  }

  /** A continuation's lines touch the entry's span on the proper side and are the text it adds. */
  ghost predicate Adjacent(cs: seq<Candidate>, p: Pack, pd: Pending)
    requires Shaped(p) && InRange(pd, p)
  {
    && pd.span.src == pd.left == p.spans[pd.at].src < |cs|
    && pd.span.lo < pd.span.hi <= |Stream(cs[pd.left].ordered)|
    && pd.text == RunText(Stream(cs[pd.left].ordered), pd.span.lo, pd.span.hi)
    && pd.chunks == RunChunks(Stream(cs[pd.left].ordered), pd.span.lo, pd.span.hi)
    && (if pd.above then pd.span.hi == p.spans[pd.at].lo else pd.span.lo == p.spans[pd.at].hi)
  }

  ghost predicate SelectedShow(cs: seq<Candidate>, p: Pack)
    requires Shaped(p)
  {
    && (forall i :: 0 <= i < |p.selected| ==> EntryShows(cs, p.selected[i], p.spans[i]))
    && (forall i, j :: 0 <= i < j < |p.selected| ==> p.spans[i].src != p.spans[j].src)
  }

  /** No open chunk shares a line with what is shown. */
  ghost predicate OpenApart(cs: seq<Candidate>, p: Pack)
    requires Shaped(p) && |p.leftovers| == |cs|
  {
    forall i, e :: 0 <= i < |p.selected| && p.spans[i].src < |cs| && Open(p, p.spans[i].src, e) ==>
      Apart(ChunkSpan(p.spans[i].src, cs[p.spans[i].src], e.chunkIndex), p.spans[i])
  }

  ghost predicate LeftoversAreChunks(cs: seq<Candidate>, p: Pack)
    requires |p.leftovers| == |cs|
  {
    forall s :: 0 <= s < |cs| ==>
      DistinctEntries(p.leftovers[s].entries) && forall e :: e in p.leftovers[s].entries ==> IsChunkOf(cs[s], e)
  }

  /** Continuations k, k + 1, ... are still adjacent, and no two of the same side wait for one entry. */
  ghost predicate PendingAdjacent(cs: seq<Candidate>, p: Pack, k: nat)
    requires Shaped(p)
  {
    && (forall i :: k <= i < |p.pending| ==> Adjacent(cs, p, p.pending[i]))
    && (forall i, j :: k <= i < j < |p.pending| ==>
          p.pending[i].at != p.pending[j].at || p.pending[i].above != p.pending[j].above)
  }

  ghost predicate LinesInv(cs: seq<Candidate>, p: Pack, k: nat) {
    && Shaped(p) && |p.leftovers| == |cs|
    && SelectedShow(cs, p) && OpenApart(cs, p) && LeftoversAreChunks(cs, p) && PendingAdjacent(cs, p, k)
  }

  // ---------- pass 1 establishes it ----------

  lemma AnchoredShows(q: Query, cs: seq<Candidate>, s: nat)
    requires GoodCandidates(cs) && s < |cs| && Anchoring(q, cs[s]).Some?
    ensures var a := Anchoring(q, cs[s]).value;
            var p := AnchorPlan(q, cs[s].ordered, cs[s].ranked[0].chunkIndex, cs[s].ranked[0].text).value;
            var lines := Stream(cs[s].ordered);
            && PlanFits(p, lines)
            && OfferSpan(q, cs[s], s) == Span(s, p.low, p.high)
            && Shows(lines, p.low, p.high, a.text)
            && a == PlanExcerpt(q, lines, p)
  {
    var lines := Stream(cs[s].ordered);
    var p := AnchorPlan(q, cs[s].ordered, cs[s].ranked[0].chunkIndex, cs[s].ranked[0].text).value;
    PlanOrigin(q, cs[s].ordered, cs[s].ranked[0].chunkIndex, cs[s].ranked[0].text, p);
    if p.sliced {
      var line := lines[p.best].text;
      var start := TrimStart(q, line, p.cap);
      assert p.low == p.best && p.high == p.best + 1;
      assert Texts(lines)[p.low..p.high][0 := line[start..start + p.cap]] == [line[start..start + p.cap]];
      assert ShowsAt(lines, p.low, p.high, TrimLine(q, line, p.cap), p.best, start, start + p.cap);
    } else {
      RunShows(lines, p.low, p.high);
    }
  }

  lemma OfferShows(q: Query, cs: seq<Candidate>, s: nat)
    requires GoodCandidates(cs) && s < |cs|
    ensures EntryShows(cs, Offer(q, cs[s]), OfferSpan(q, cs[s], s))
    ensures OfferSpan(q, cs[s], s).src == s
  {
    assert IsChunkOf(cs[s], cs[s].ranked[0]);
    if Anchoring(q, cs[s]).None? {
      ChunkShows(cs, s, cs[s].ranked[0]);
    } else {
      AnchoredShows(q, cs, s);
    }
  }

  /** What an offer leaves open lies apart from what the offer shows. */
  lemma OfferApart(q: Query, cs: seq<Candidate>, s: nat, e: Entry)
    requires GoodCandidates(cs) && s < |cs|
    requires e in LeftoverOf(q, cs[s]).entries && e.chunkIndex !in LeftoverOf(q, cs[s]).covered
    ensures Apart(ChunkSpan(s, cs[s], e.chunkIndex), OfferSpan(q, cs[s], s))
  {
    assert e in cs[s].ranked && IsChunkOf(cs[s], e) && IsChunkOf(cs[s], cs[s].ranked[0]);
    if Anchoring(q, cs[s]).None? {
      var i :| 1 <= i < |cs[s].ranked| && cs[s].ranked[i] == e;
      assert cs[s].ranked[0].chunkIndex != e.chunkIndex;
      ChunksApart(cs, s, e, cs[s].ranked[0]);
    } else {
      AnchoredShows(q, cs, s);
      var p := AnchorPlan(q, cs[s].ordered, cs[s].ranked[0].chunkIndex, cs[s].ranked[0].text).value;
      CoveredApart(cs, s, e, p.low, p.high);
    }
  }

  lemma ContinuationAdjacent(q: Query, cs: seq<Candidate>, p: Pack, k: nat)
    requires GoodCandidates(cs) && Homed(q, cs, p) && k < |p.pending|
    ensures Adjacent(cs, p, p.pending[k])
  {
    var pd := p.pending[k];
    assert ContinuationHomed(q, cs, p, pd) && OfferHomed(q, cs, p, pd.at);
    AnchoredShows(q, cs, pd.left);
    var plan := AnchorPlan(q, cs[pd.left].ordered, cs[pd.left].ranked[0].chunkIndex, cs[pd.left].ranked[0].text).value;
    assert pd.text != "";
    assert Texts(Stream(cs[pd.left].ordered))[pd.span.lo..pd.span.hi] != [];
  }

  ghost predicate Sided(p: Pack) {
    forall i, j :: 0 <= i < j < |p.pending| ==>
      p.pending[i].at != p.pending[j].at || p.pending[i].above != p.pending[j].above
  }

  lemma AdmitSides(q: Query, c: Candidate, cost: Entry -> int, budget: int, p: Pack)
    requires |c.ranked| > 0 && Shaped(p) && Sided(p)
    ensures Sided(Admit(q, c, cost, budget, p))
  {
    var r := Admit(q, c, cost, budget, p);
    var more := Continuations(q, c, |p.selected|, |p.leftovers|);
    assert |more| <= 2 && (|more| == 2 ==> more[0].above != more[1].above);
    if r.pending != p.pending {
      assert r.pending == p.pending + more;
      forall i, j | 0 <= i < j < |r.pending|
        ensures r.pending[i].at != r.pending[j].at || r.pending[i].above != r.pending[j].above
      {
        if i < |p.pending| <= j {
          assert InRange(p.pending[i], p);
          ContinuationFields(q, c, |p.selected|, |p.leftovers|, more[j - |p.pending|]);
        }
      }
    }
  }

  lemma {:induction false} SidesDistinct(q: Query, cs: seq<Candidate>, cost: Entry -> int, budget: int, used: int)
    requires Presentable(cs)
    ensures Sided(AdmitAll(q, cs, cost, budget, used))
  {
    if |cs| > 0 {
      var n := |cs| - 1;
      AdmitAllShaped(q, cs[..n], cost, budget, used);
      SidesDistinct(q, cs[..n], cost, budget, used);
      AdmitSides(q, cs[n], cost, budget, AdmitAll(q, cs[..n], cost, budget, used));
    }
  }

  lemma LeftoversOfPass1(q: Query, cs: seq<Candidate>, p: Pack)
    requires GoodCandidates(cs) && Homed(q, cs, p)
    ensures LeftoversAreChunks(cs, p)
  {
    forall s | 0 <= s < |cs|
      ensures DistinctEntries(p.leftovers[s].entries)
      ensures forall e :: e in p.leftovers[s].entries ==> IsChunkOf(cs[s], e)
    {
      if p.leftovers[s] != Leftover(cs[s].ranked, {}) {
        var i :| 0 <= i < |p.selected| && p.spans[i].src == s;
        assert OfferHomed(q, cs, p, i);
      }
    }
  }

  lemma AdmitEstablishes(q: Query, cs: seq<Candidate>, cost: Entry -> int, budget: int, used: int)
    requires GoodCandidates(cs)
    ensures LinesInv(cs, AdmitAll(q, cs, cost, budget, used), 0)
  {
    AdmitAllHomed(q, cs, cost, budget, used);
    var p := AdmitAll(q, cs, cost, budget, used);
    forall i | 0 <= i < |p.selected|
      ensures EntryShows(cs, p.selected[i], p.spans[i])
    {
      assert OfferHomed(q, cs, p, i);
      OfferShows(q, cs, p.spans[i].src);
    }
    forall i, e | 0 <= i < |p.selected| && p.spans[i].src < |cs| && Open(p, p.spans[i].src, e)
      ensures Apart(ChunkSpan(p.spans[i].src, cs[p.spans[i].src], e.chunkIndex), p.spans[i])
    {
      assert OfferHomed(q, cs, p, i);
      OfferApart(q, cs, p.spans[i].src, e);
    }
    LeftoversOfPass1(q, cs, p);
    forall k | 0 <= k < |p.pending|
      ensures Adjacent(cs, p, p.pending[k])
    {
      ContinuationAdjacent(q, cs, p, k);
    }
    SidesDistinct(q, cs, cost, budget, used);
  }

  // ---------- continuations keep it ----------

  lemma GrownShows(cs: seq<Candidate>, p: Pack, pd: Pending)
    requires Shaped(p) && InRange(pd, p) && Adjacent(cs, p, pd)
    requires EntryShows(cs, p.selected[pd.at], p.spans[pd.at])
    ensures EntryShows(cs, Grown(p.selected[pd.at], pd), GrownSpan(p.spans[pd.at], pd))
  {
    var lines, sp := Stream(cs[pd.left].ordered), p.spans[pd.at];
    if pd.above {
      GrowShowsUp(lines, pd.span.lo, sp.lo, sp.hi, p.selected[pd.at].text);
    } else {
      GrowShowsDown(lines, sp.lo, sp.hi, pd.span.hi, p.selected[pd.at].text);
    }
  }

  lemma GrownApart(cs: seq<Candidate>, p: Pack, pd: Pending, e: Entry)
    requires GoodCandidates(cs)
    requires Shaped(p) && |p.leftovers| == |cs| && InRange(pd, p) && Adjacent(cs, p, pd)
    requires LeftoversAreChunks(cs, p) && OpenApart(cs, p)
    requires EntryShows(cs, p.selected[pd.at], p.spans[pd.at])
    requires Open(p, pd.left, e) && e.chunkIndex !in pd.chunks
    ensures Apart(ChunkSpan(pd.left, cs[pd.left], e.chunkIndex), GrownSpan(p.spans[pd.at], pd))
  {
    assert IsChunkOf(cs[pd.left], e);
    assert Apart(ChunkSpan(pd.left, cs[pd.left], e.chunkIndex), p.spans[pd.at]);
    CoveredApart(cs, pd.left, e, pd.span.lo, pd.span.hi);
    ChunkShows(cs, pd.left, e);
  }

  lemma ExtendKeepsSelected(cs: seq<Candidate>, cost: Entry -> int, budget: int, p: Pack, pd: Pending)
    requires GoodCandidates(cs) && Shaped(p) && InRange(pd, p) && Adjacent(cs, p, pd) && SelectedShow(cs, p)
    ensures Shaped(Extend(pd, cost, budget, p)) && SelectedShow(cs, Extend(pd, cost, budget, p))
  {
    GrownShows(cs, p, pd);
  }

  lemma ExtendKeepsApart(cs: seq<Candidate>, cost: Entry -> int, budget: int, p: Pack, pd: Pending)
    requires GoodCandidates(cs) && Shaped(p) && |p.leftovers| == |cs| && InRange(pd, p) && Adjacent(cs, p, pd)
    requires SelectedShow(cs, p) && OpenApart(cs, p) && LeftoversAreChunks(cs, p)
    ensures Shaped(Extend(pd, cost, budget, p)) && OpenApart(cs, Extend(pd, cost, budget, p))
  {
    var r := Extend(pd, cost, budget, p);
    forall i, e | 0 <= i < |r.selected| && r.spans[i].src < |cs| && Open(r, r.spans[i].src, e)
      ensures Apart(ChunkSpan(r.spans[i].src, cs[r.spans[i].src], e.chunkIndex), r.spans[i])
    {
      assert r.spans[i].src == p.spans[i].src && Open(p, p.spans[i].src, e);
      if r != p && i == pd.at {
        GrownApart(cs, p, pd, e);
      }
    }
  }

  lemma ExtendKeepsPending(cs: seq<Candidate>, cost: Entry -> int, budget: int, p: Pack, k: nat)
    requires Shaped(p) && k < |p.pending| && PendingAdjacent(cs, p, k)
    ensures var r := Extend(p.pending[k], cost, budget, p); Shaped(r) && PendingAdjacent(cs, r, k + 1)
  {
    var pd := p.pending[k];
    var r := Extend(pd, cost, budget, p);
    assert Adjacent(cs, p, pd);
    forall i | k + 1 <= i < |r.pending|
      ensures Adjacent(cs, r, r.pending[i])
    {
      assert Adjacent(cs, p, p.pending[i]);
    }
  }

  lemma ExtendKeepsLines(cs: seq<Candidate>, cost: Entry -> int, budget: int, p: Pack, k: nat)
    requires GoodCandidates(cs) && LinesInv(cs, p, k) && k < |p.pending|
    ensures LinesInv(cs, Extend(p.pending[k], cost, budget, p), k + 1)
  {
    var pd := p.pending[k];
    assert Adjacent(cs, p, pd);
    ExtendKeepsSelected(cs, cost, budget, p, pd);
    ExtendKeepsApart(cs, cost, budget, p, pd);
    ExtendKeepsPending(cs, cost, budget, p, k);
  }

  lemma ExtendAllKeepsLines(cs: seq<Candidate>, cost: Entry -> int, budget: int, p: Pack)
    requires GoodCandidates(cs) && LinesInv(cs, p, 0)
    ensures LinesInv(cs, ExtendAll(p.pending, cost, budget, p), |p.pending|)
  {
    var inv := (r: Pack, k: nat) => LinesInv(cs, r, k);
    forall r, k: nat | inv(r, k) && Shaped(r) && r.pending == p.pending && k < |p.pending|
      ensures inv(Extend(p.pending[k], cost, budget, r), k + 1)
    {
      ExtendKeepsLines(cs, cost, budget, r, k);
    }
    assert p.pending[0..] == p.pending;
    ExtendInduction(inv, 0, cost, budget, p);
  }

  // ---------- pass 2 ----------

  lemma {:induction false} UnshownDistinct(entries: seq<Entry>, covered: set<int>)
    requires DistinctEntries(entries)
    ensures DistinctEntries(Unshown(entries, covered))
  {
    if |entries| > 0 {
      var n := |entries| - 1;
      UnshownDistinct(entries[..n], covered);
      forall e | e in Unshown(entries[..n], covered)
        ensures (e.rank, e.chunkIndex) != (entries[n].rank, entries[n].chunkIndex)
      {
        UnshownMembers(entries[..n], covered, e);
      }
    }
  }

  lemma {:induction false} RemainingDistinct(cs: seq<Candidate>, leftovers: seq<Leftover>)
    requires GoodCandidates(cs) && |leftovers| <= |cs|
    requires forall s :: 0 <= s < |leftovers| ==> DistinctEntries(leftovers[s].entries)
    requires forall s, e :: 0 <= s < |leftovers| && e in leftovers[s].entries ==> IsChunkOf(cs[s], e)
    ensures DistinctEntries(Remaining(leftovers))
    ensures forall e :: e in Remaining(leftovers) ==> exists s :: 0 <= s < |leftovers| && e.rank == cs[s].rank
  {
    if |leftovers| > 0 {
      var n := |leftovers| - 1;
      RemainingDistinct(cs, leftovers[..n]);
      var before, last := Remaining(leftovers[..n]), Unshown(leftovers[n].entries, leftovers[n].covered);
      UnshownDistinct(leftovers[n].entries, leftovers[n].covered);
      forall e | e in last
        ensures e.rank == cs[n].rank
      {
        UnshownMembers(leftovers[n].entries, leftovers[n].covered, e);
      }
      assert forall e :: e in before ==> e.rank != cs[n].rank;
      assert Remaining(leftovers) == before + last;
    }
  }

  lemma {:induction false} SourceOfRank(cs: seq<Candidate>, s: nat)
    requires GoodCandidates(cs) && s < |cs|
    ensures SourceOf(cs, cs[s].rank) == s
  {
  }

  ghost predicate PairwiseApart(spans: seq<Span>) {
    forall i, j :: 0 <= i < j < |spans| ==> Apart(spans[i], spans[j])
  }

  /** An entry of the fill order: a chunk of a candidate that lies apart from everything pass 1 shows. */
  ghost predicate Fillable(cs: seq<Candidate>, p: Pack, e: Entry) {
    exists s :: 0 <= s < |cs| && IsChunkOf(cs[s], e) && Open(p, s, e)
  }

  ghost predicate ApartFrom(spans: seq<Span>, sp: Span) {
    forall i :: 0 <= i < |spans| ==> Apart(spans[i], sp)
  }

  lemma FillableSpan(cs: seq<Candidate>, p: Pack, e: Entry)
    requires GoodCandidates(cs) && Shaped(p) && |p.leftovers| == |cs| && SelectedShow(cs, p) && OpenApart(cs, p)
    requires Fillable(cs, p, e)
    ensures EntryShows(cs, e, EntrySpan(cs, e))
    ensures ApartFrom(p.spans, EntrySpan(cs, e))
  {
    var s :| 0 <= s < |cs| && IsChunkOf(cs[s], e) && Open(p, s, e);
    SourceOfRank(cs, s);
    ChunkShows(cs, s, e);
  }

  lemma FillablesApart(cs: seq<Candidate>, p: Pack, e: Entry, f: Entry)
    requires GoodCandidates(cs) && Fillable(cs, p, e) && Fillable(cs, p, f)
    requires (e.rank, e.chunkIndex) != (f.rank, f.chunkIndex)
    ensures Apart(EntrySpan(cs, e), EntrySpan(cs, f))
  {
    var s :| 0 <= s < |cs| && IsChunkOf(cs[s], e) && Open(p, s, e);
    var t :| 0 <= t < |cs| && IsChunkOf(cs[t], f) && Open(p, t, f);
    SourceOfRank(cs, s);
    SourceOfRank(cs, t);
    ChunkShows(cs, s, e);
    ChunkShows(cs, t, f);
    if s == t {
      ChunksApart(cs, s, e, f);
    }
  }

  lemma {:induction false} TakenDistinct(entries: seq<Entry>, cost: Entry -> int, budget: int, used: int)
    requires DistinctEntries(entries)
    ensures DistinctEntries(Taken(entries, cost, budget, used))
  {
    if |entries| > 0 {
      var n := |entries| - 1;
      TakenDistinct(entries[..n], cost, budget, used);
      TakenMembers(entries[..n], cost, budget, used);
      forall e | e in Taken(entries[..n], cost, budget, used)
        ensures (e.rank, e.chunkIndex) != (entries[n].rank, entries[n].chunkIndex)
      {
        var i := IndexOf(entries[..n], e);
        assert entries[i] == e;
      }
    }
  }

  lemma SpansJoin(a: seq<Span>, b: seq<Span>)
    requires PairwiseApart(a) && PairwiseApart(b)
    requires forall j :: 0 <= j < |b| ==> ApartFrom(a, b[j])
    ensures PairwiseApart(a + b)
  {
    forall i, j | 0 <= i < j < |a + b|
      ensures Apart((a + b)[i], (a + b)[j])
    {
      if i < |a| <= j {
        assert ApartFrom(a, b[j - |a|]);
      }
    }
  }

  /** Adding distinct open chunks keeps all spans apart. */
  lemma AddedApart(cs: seq<Candidate>, p: Pack, added: seq<Entry>)
    requires GoodCandidates(cs) && Shaped(p) && |p.leftovers| == |cs| && SelectedShow(cs, p) && OpenApart(cs, p)
    requires DistinctEntries(added)
    requires forall e :: e in added ==> Fillable(cs, p, e)
    ensures PairwiseApart(p.spans + EntrySpans(cs, added))
    ensures forall i :: 0 <= i < |added| ==> EntryShows(cs, added[i], EntrySpan(cs, added[i]))
  {
    var spans := EntrySpans(cs, added);
    forall j | 0 <= j < |added|
      ensures EntryShows(cs, added[j], EntrySpan(cs, added[j]))
      ensures ApartFrom(p.spans, spans[j])
    {
      FillableSpan(cs, p, added[j]);
    }
    forall i, j | 0 <= i < j < |added|
      ensures Apart(spans[i], spans[j])
    {
      FillablesApart(cs, p, added[i], added[j]);
    }
    SpansJoin(p.spans, spans);
  }

  lemma FillKeepsLines(cs: seq<Candidate>, entries: seq<Entry>, cost: Entry -> int, budget: int, p: Pack)
    requires GoodCandidates(cs) && Shaped(p) && |p.leftovers| == |cs| && SelectedShow(cs, p) && OpenApart(cs, p)
    requires DistinctEntries(entries)
    requires forall e :: e in entries ==> Fillable(cs, p, e)
    ensures var r := Fill(cs, entries, cost, budget, p);
            && |r.spans| == |r.selected|
            && PairwiseApart(r.spans)
            && (forall i :: 0 <= i < |r.selected| ==> EntryShows(cs, r.selected[i], r.spans[i]))
  {
    TakenDistinct(entries, cost, budget, p.used);
    TakenMembers(entries, cost, budget, p.used);
    AddedApart(cs, p, Taken(entries, cost, budget, p.used));
  }

  // ---------- main result ----------

  /** For sources whose chunk indexes are distinct: every selected entry shows a run of its own session's
      lines, and no line is in the runs of two entries, counting windows, applied continuations and filled
      chunks together. The returned list holds exactly these entries. */
  lemma NoLineShownTwice(q: Query, sources: seq<Source>, cost: Entry -> int, budget: int, used: int)
    requires DistinctSources(sources)
    ensures var cs := Collect(q, sources);
            && Presentable(cs)
            && var p := PackAll(q, cs, cost, budget, used);
            && |p.spans| == |p.selected|
            && (forall i :: 0 <= i < |p.selected| ==> EntryShows(cs, p.selected[i], p.spans[i]))
            && PairwiseApart(p.spans)
            && multiset(Select(q, sources, cost, budget, used)) == multiset(p.selected)
  {
    CollectPresentable(q, sources);
    CollectIsGood(q, sources);
    var cs := Collect(q, sources);
    PackLines(q, cs, cost, budget, used);
    SortPermutes(PackAll(q, cs, cost, budget, used).selected, ByDate);
  }

  lemma PackLines(q: Query, cs: seq<Candidate>, cost: Entry -> int, budget: int, used: int)
    requires GoodCandidates(cs)
    ensures var p := PackAll(q, cs, cost, budget, used);
            && |p.spans| == |p.selected|
            && (forall i :: 0 <= i < |p.selected| ==> EntryShows(cs, p.selected[i], p.spans[i]))
            && PairwiseApart(p.spans)
  {
    AdmitAllShaped(q, cs, cost, budget, used);
    var admitted := AdmitAll(q, cs, cost, budget, used);
    AdmitEstablishes(q, cs, cost, budget, used);
    ExtendAllKeepsLines(cs, cost, budget, admitted);
    var p := ExtendAll(admitted.pending, cost, budget, admitted);
    var rest := Remaining(p.leftovers);
    RemainingDistinct(cs, p.leftovers);
    SortDistinctEntries(rest, ByFill);
    forall e | e in Sort(rest, ByFill)
      ensures Fillable(cs, p, e)
    {
      SortMembers(rest, ByFill, e);
      RemainingMembers(p.leftovers, e);
    }
    FillKeepsLines(cs, Sort(rest, ByFill), cost, budget, p);
  }
}
