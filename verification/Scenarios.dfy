/** Small retrieval results worked out completely: one chunk, and two sessions on which anchoring changes a cost. The
    first of the two holds a numbered line and a longer chunk that matches more of the question's terms, the second
    a single chunk. */
module Scenarios {
  import opened Text
  import opened Anchor
  import opened AnchorWindow
  import opened Wrappers
  import opened Packer
  import opened PackerBudget

  function Sessions(item: string, long: string, short: string): seq<Source> {
    [Source("s", "d", [Chunk(0, item), Chunk(1, long)]), Source("t", "d", [Chunk(0, short)])]
  }

  /** Three texts with visible characters, the first two of one line each. */
  predicate Presented(item: string, long: string, short: string) {
    && Strip(item) != "" && Strip(long) != "" && Strip(short) != ""
    && NoBreak(item) && NoBreak(long) && |item| < |long|
  }

  /** The longer chunk matches more terms, and so is the baseline; the numbered line scores at least as high as a
      line, because terms with a digit and longer terms count double there. */
  predicate Competing(q: Query, item: string, long: string) {
    && q.lineScore("") == 0 && !q.enumerated("")
    && q.enumerated(item) && q.lineScore(item) >= ANCHOR_MIN_SCORE && q.lineScore(long) <= q.lineScore(item)
    && q.chunkScore(item) < q.chunkScore(long)
  }

  function First(q: Query, item: string, long: string): Candidate {
    Candidate(0,
              [Entry(-(q.chunkScore(long) as int), 0, 1, "s", "d", long), Entry(-(q.chunkScore(item) as int), 0, 0, "s", "d", item)],
              [Chunk(0, item), Chunk(1, long)])
  }

  function Second(q: Query, short: string): Candidate {
    Candidate(1, [Entry(-(q.chunkScore(short) as int), 1, 0, "t", "d", short)], [Chunk(0, short)])
  }

  // ---------- what is collected ----------

  lemma KeptOne(c: Chunk)
    requires Strip(c.text) != ""
    ensures Kept([c]) == [c]
  {
    assert [c][..0] == [] && Kept([]) == [];
  }

  lemma KeptTwo(c: Chunk, d: Chunk)
    requires Strip(c.text) != "" && Strip(d.text) != ""
    ensures Kept([c, d]) == [c, d]
  {
    assert [c, d][..1] == [c];
    KeptOne(c);
  }

  lemma SortOne<T>(x: T, le: (T, T) -> bool)
    ensures Sort([x], le) == [x]
  {
    assert [x][..0] == [] && Sort([x][..0], le) == [];
  }

  lemma SortTwo<T>(x: T, y: T, le: (T, T) -> bool)
    ensures Sort([x, y], le) == if le(x, y) then [x, y] else [y, x]
  {
    assert [x, y][..1] == [x];
    SortOne(x, le);
    assert [x][..0] == [] && Insert(y, [x][..0], le) == [y];
  }

  lemma TwoChunks(q: Query, rank: int, s: Source, c: Chunk, d: Chunk)
    requires s.Source? && s.chunks == [c, d] && Strip(c.text) != "" && Strip(d.text) != ""
    requires c.index <= d.index && q.chunkScore(c.text) < q.chunkScore(d.text)
    ensures Kept(s.chunks) == [c, d]
    ensures CandidateOf(q, rank, s) == Candidate(rank, [EntryOf(q, rank, s, d), EntryOf(q, rank, s, c)], [c, d])
  {
    KeptTwo(c, d);
    assert EntriesOf(q, rank, s, [c, d]) == [EntryOf(q, rank, s, c), EntryOf(q, rank, s, d)];
    SortTwo(EntryOf(q, rank, s, c), EntryOf(q, rank, s, d), ByScore);
    SortTwo(c, d, ByIndex);
  }

  lemma FirstIsCollected(q: Query, item: string, long: string, s: Source)
    requires Strip(item) != "" && Strip(long) != "" && q.chunkScore(item) < q.chunkScore(long)
    requires s == Source("s", "d", [Chunk(0, item), Chunk(1, long)])
    ensures Kept(s.chunks) != [] && CandidateOf(q, 0, s) == First(q, item, long)
  {
    TwoChunks(q, 0, s, s.chunks[0], s.chunks[1]);
  }

  lemma OneChunk(q: Query, rank: int, s: Source, c: Chunk)
    requires s.Source? && s.chunks == [c] && Strip(c.text) != ""
    ensures Kept(s.chunks) == [c]
    ensures CandidateOf(q, rank, s) == Candidate(rank, [EntryOf(q, rank, s, c)], [c])
  {
    KeptOne(c);
    assert EntriesOf(q, rank, s, [c]) == [EntryOf(q, rank, s, c)];
    SortOne(EntryOf(q, rank, s, c), ByScore);
    SortOne(c, ByIndex);
  }

  lemma SecondIsCollected(q: Query, short: string, s: Source)
    requires Strip(short) != "" && s == Source("t", "d", [Chunk(0, short)])
    ensures Kept(s.chunks) != [] && CandidateOf(q, 1, s) == Second(q, short)
  {
    OneChunk(q, 1, s, s.chunks[0]);
  }

  /** What the collection loop makes of the two sessions. */
  lemma Collected(q: Query, item: string, long: string, short: string)
    requires Presented(item, long, short) && Competing(q, item, long)
    ensures Collect(q, Sessions(item, long, short)) == [First(q, item, long), Second(q, short)]
  {
    var sources := Sessions(item, long, short);
    assert sources[..1] == [sources[0]] && sources[..1][..0] == [];
    assert Collect(q, sources[..1][..0]) == [];
    FirstIsCollected(q, item, long, sources[0]);
    SecondIsCollected(q, short, sources[1]);
    assert Collect(q, sources[..1]) == [First(q, item, long)];
  }

  // ---------- what is offered ----------

  lemma FirstStream(item: string, long: string)
    requires NoBreak(item) && NoBreak(long)
    ensures Stream([Chunk(0, item), Chunk(1, long)]) == [Line(0, item), Line(1, ""), Line(1, long)]
  {
    var ordered := [Chunk(0, item), Chunk(1, long)];
    assert ordered[..1] == [Chunk(0, item)] && ordered[..1][..0] == [];
    SplitFirst(item, "");
    SplitFirst(long, "");
    assert TagLines(0, [item]) == [Line(0, item)];
    assert TagLines(1, [long]) == [Line(1, long)];
    assert Stream(ordered[..1]) == [Line(0, item)];
  }

  lemma ItemIsBest(q: Query, item: string, long: string, lines: seq<Line>)
    requires Competing(q, item, long) && lines == [Line(0, item), Line(1, ""), Line(1, long)]
    ensures Best(q, lines, 3) == 0 && EnumeratedNear(q, lines, 0)
  {
    assert Best(q, lines, 1) == 0;
    assert Best(q, lines, 2) == 0;
    assert q.enumerated(lines[0].text);
  }

  lemma ItemIsWindow(q: Query, item: string, long: string, lines: seq<Line>, cap: nat)
    requires Competing(q, item, long) && lines == [Line(0, item), Line(1, ""), Line(1, long)]
    requires |item| < |long| == cap
    ensures var p := WindowPlan(q, lines, 0, cap);
            PlanFits(p, lines) && PlanText(q, lines, p) == item
  {
    PlanIsInRange(q, lines, 0, cap);
    var g := Start(lines, 0);
    assert Grow(lines, cap, StepDown(lines, g)) == StepDown(lines, g);
    assert Grow(lines, cap, g) == StepDown(lines, g);
    assert TrimHigh(lines, 1, 0) == 0;
    assert Texts(lines)[0..1] == [item];
  }

  /** The longer chunk is replaced by the numbered line. */
  lemma FirstOffer(q: Query, item: string, long: string)
    requires NoBreak(item) && NoBreak(long) && |item| < |long| && Competing(q, item, long)
    ensures var c := First(q, item, long); Offer(q, c) == c.ranked[0].(chunkIndex := 0, text := item)
  {
    var ordered := First(q, item, long).ordered;
    var lines := Stream(ordered);
    FirstStream(item, long);
    ItemIsBest(q, item, long, lines);
    ItemIsWindow(q, item, long, lines, |long|);
    OneDigit();
    assert AnchorPlan(q, ordered, 1, long) == Some(WindowPlan(q, lines, 0, |long|));
  }

  lemma OneDigit()
    ensures |Str(1)| == 1 && |Str(2)| == 1
  {
  }

  lemma SecondOffer(q: Query, short: string)
    ensures Offer(q, Second(q, short)) == Second(q, short).ranked[0]
  {
  }

  /** What the best chunks of both cost. */
  function BestCosts(cs: seq<Candidate>, cost: Entry -> int): int
    requires |cs| == 2 && Presentable(cs)
  {
    cost(cs[0].ranked[0]) + cost(cs[1].ranked[0])
  }

  /** At a budget one short of what both best chunks cost, pass 1 admits the second session with anchoring and turns
      it away without. */
  ghost predicate AnchoringAdmits(q: Query, cs: seq<Candidate>, cost: Entry -> int) {
    |cs| == 2 && Presentable(cs) && AdmittedByAnchoring(q, cs, cost, BestCosts(cs, cost) - 1)
  }

  /** At a budget of exactly what both best chunks cost, pass 1 admits both sessions without anchoring and not both
      with it. */
  ghost predicate AnchoringLoses(q: Query, cs: seq<Candidate>, cost: Entry -> int) {
    |cs| == 2 && Presentable(cs) && LostByAnchoring(q, cs, cost, BestCosts(cs, cost))
  }

  /** The first candidate has the longer chunk as its baseline and is offered as the numbered line, the second is
      offered as it is. */
  predicate Replaced(q: Query, cs: seq<Candidate>, item: string, long: string)
    requires |cs| == 2 && Presentable(cs)
  {
    && Offer(q, cs[1]) == cs[1].ranked[0]
    && cs[0].ranked[0].chunkIndex == 1 && cs[0].ranked[0].text == long
    && Offer(q, cs[0]) == cs[0].ranked[0].(chunkIndex := 0, text := item)
  }

  lemma Offered(q: Query, item: string, long: string, short: string, cs: seq<Candidate>)
    requires Presented(item, long, short) && Competing(q, item, long)
    requires cs == Collect(q, Sessions(item, long, short))
    ensures |cs| == 2 && Presentable(cs) && Replaced(q, cs, item, long)
  {
    Collected(q, item, long, short);
    FirstOffer(q, item, long);
    SecondOffer(q, short);
  }

  // ---------- one chunk ----------

  lemma OneIsAdmitted(q: Query, c: Candidate, e: Entry, cost: Entry -> int, budget: int, used: int)
    requires c.ranked == [e] && |c.ordered| == 1 && used + cost(e) <= budget
    ensures var p := AdmitAll(q, [c], cost, budget, used);
            p.selected == [e] && p.pending == [] && p.leftovers == [Leftover([], {})]
  {
    assert [c][..0] == [];
    assert AdmitAll(q, [], cost, budget, used) == Pack([], [], [], [], used);
    assert Offer(q, c) == e && c.ranked[1..] == [];
  }

  lemma NothingRemains()
    ensures Remaining([Leftover([], {})]) == []
  {
    var l := Leftover([], {});
    assert [l][..0] == [] && Remaining([l][..0]) == [];
  }

  /** A single chunk that fits is the selection. */
  lemma SelectsOne(q: Query, s: Source, c: Chunk, cost: Entry -> int, budget: int, used: int)
    requires s.Source? && s.chunks == [c] && Strip(c.text) != "" && used + cost(EntryOf(q, 0, s, c)) <= budget
    ensures Select(q, [s], cost, budget, used) == [EntryOf(q, 0, s, c)]
  {
    var e := EntryOf(q, 0, s, c);
    var candidate := CandidateOf(q, 0, s);
    OneChunk(q, 0, s, c);
    assert [s][..0] == [] && Collect(q, [s][..0]) == [];
    assert Collect(q, [s]) == [candidate];
    OneIsAdmitted(q, candidate, e, cost, budget, used);
    NothingRemains();
    SortOne(e, ByDate);
  }

  // ---------- an instance ----------

  /** Scores as the terms "apple", "banana", "red", "car" and "dog" give them: the first two count double in a
      line, and each counts once in a chunk. */
  function Scores(item: string, long: string): Query {
    Query(line => if line == item then 4 else if line == long then 3 else 0,
          chunk => if chunk == item then 2 else if chunk == long then 3 else 0,
          line => line == item, _ => [])
  }

  lemma ScoresCompete(item: string, long: string)
    requires item != long && item != "" && long != ""
    ensures Competing(Scores(item, long), item, long)
  {
  }
}
