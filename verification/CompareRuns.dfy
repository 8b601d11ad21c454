/** Paired comparison of two result files over the intersection of their judged questions. */
module CompareRuns {
  import opened Ids
  import opened Mcnemar

  /** A result row: an id that is missing or no string is "", so is a missing question type; the verdict is
      the judge's boolean if there is one. */
  datatype Record = Record(id: string, verdict: Verdict, questionType: string, flaggedAbstention: bool)

  datatype Verdict = NotJudged | Correct | Wrong

  type Records = map<string, Record>

  const ABSTENTION_SUFFIX := "_abs"

  // ---------- the last row of each question ----------

  /** Row i is the last row of its question. */
  predicate LastOf(rows: seq<Record>, i: nat)
    requires i < |rows|
  {
    rows[i].id != "" && forall j :: i < j < |rows| ==> rows[j].id != rows[i].id
  }

  method DedupeLast(rows: seq<Record>) returns (byId: Records)
    ensures forall id :: id in byId <==> exists i :: 0 <= i < |rows| && LastOf(rows, i) && rows[i].id == id
    ensures forall i :: 0 <= i < |rows| && LastOf(rows, i) ==> rows[i].id in byId && byId[rows[i].id] == rows[i]
    ensures forall i :: 0 <= i < |rows| && rows[i].id != "" ==> rows[i].id in byId
  {
    byId := map[];
    for n := 0 to |rows|
      invariant forall id :: id in byId ==>
                  exists i :: 0 <= i < n && rows[i] == byId[id] && rows[i].id == id && id != ""
                              && forall j :: i < j < n ==> rows[j].id != id
      invariant forall i :: 0 <= i < n && rows[i].id != "" ==> rows[i].id in byId
    {
      if rows[n].id != "" {
        byId := byId[rows[n].id := rows[n]];
      }
    }
    forall id | id in byId
      ensures exists i :: 0 <= i < |rows| && LastOf(rows, i) && rows[i].id == id
    {
      var i :| 0 <= i < |rows| && rows[i] == byId[id] && rows[i].id == id && id != ""
               && forall j :: i < j < |rows| ==> rows[j].id != id;
      assert LastOf(rows, i);
    }
  }

  // ---------- the tally ----------

  /** The questions both files have a verdict for. */
  function Joint(base: Records, cand: Records): set<string> {
    set q | q in base && q in cand && base[q].verdict != NotJudged && cand[q].verdict != NotJudged
  }

  /** The questions of one file that have a verdict. */
  function Judged(rows: Records): set<string> {
    set q | q in rows && rows[q].verdict != NotJudged
  }

  datatype Bucket = Bucket(n: nat, bothRight: nat, bothWrong: nat, gained: nat, lost: nat) {
    function BaseCorrect(): nat { bothRight + lost }
    function CandCorrect(): nat { bothRight + gained }
    function Exchanged(): Bucket { Bucket(n, bothRight, bothWrong, lost, gained) }
  }

  predicate Holds(base: Records, cand: Records, q: string, b: bool, c: bool) {
    q in base && q in cand && (base[q].verdict == Correct) == b && (cand[q].verdict == Correct) == c
  }

  function Cell(ids: set<string>, base: Records, cand: Records, b: bool, c: bool): nat {
    |set q | q in ids && Holds(base, cand, q, b, c)|
  }

  /** How a set of questions splits by the two verdicts. */
  function Tally(ids: set<string>, base: Records, cand: Records): Bucket {
    Bucket(|ids|, Cell(ids, base, cand, true, true), Cell(ids, base, cand, false, false),
           Cell(ids, base, cand, false, true), Cell(ids, base, cand, true, false))
  }

  function EndsWith(s: string, suffix: string): bool {
    |s| >= |suffix| && s[|s| - |suffix|..] == suffix
  }

  predicate IsAbstention(r: Record, q: string) {
    r.flaggedAbstention || EndsWith(q, ABSTENTION_SUFFIX)
  }

  function TypeOf(base: Records, cand: Records, q: string): string
    requires q in base && q in cand
  {
    if cand[q].questionType != "" then cand[q].questionType
    else if base[q].questionType != "" then base[q].questionType
    else "unknown"
  }

  function OfType(ids: set<string>, base: Records, cand: Records, t: string): set<string>
    requires ids <= Joint(base, cand)
  {
    set q | q in ids && TypeOf(base, cand, q) == t
  }

  function Abstentions(ids: set<string>, base: Records, cand: Records): set<string>
    requires ids <= Joint(base, cand)
  {
    set q | q in ids && (IsAbstention(cand[q], q) || IsAbstention(base[q], q))
  }

  // ---------- the code ----------

  datatype Summary = Summary(total: Bucket, perType: map<string, Bucket>, abstention: Bucket, mcnemarP: Result<real>,
                             baseJudged: nat, candJudged: nat)

  function Added(b: Bucket, baseOk: bool, candOk: bool): Bucket {
    var more := b.(n := b.n + 1);
    if baseOk && candOk then more.(bothRight := b.bothRight + 1)
    else if !baseOk && !candOk then more.(bothWrong := b.bothWrong + 1)
    else if candOk then more.(gained := b.gained + 1)
    else more.(lost := b.lost + 1)
  }

  const EMPTY := Bucket(0, 0, 0, 0, 0)

  ghost predicate TypesTallied(perType: map<string, Bucket>, ids: set<string>, base: Records, cand: Records)
    requires ids <= Joint(base, cand)
  {
    && (forall q :: q in ids ==> TypeOf(base, cand, q) in perType)
    && (forall t :: t in perType ==> TypeTallied(perType, ids, base, cand, t))
  }

  ghost predicate TypeTallied(perType: map<string, Bucket>, ids: set<string>, base: Records, cand: Records, t: string)
    requires ids <= Joint(base, cand)
  {
    t in perType && perType[t] == Tally(OfType(ids, base, cand, t), base, cand) && OfType(ids, base, cand, t) != {}
  }

  /** What the summary says of the questions visited so far. */
  ghost predicate Summarizes(s: Summary, ids: set<string>, base: Records, cand: Records)
    requires ids <= Joint(base, cand)
  {
    && s.total == Tally(ids, base, cand)
    && s.abstention == Tally(Abstentions(ids, base, cand), base, cand)
    && TypesTallied(s.perType, ids, base, cand)
  }

  /** The whole summary of two files. */
  ghost predicate Compares(s: Summary, base: Records, cand: Records) {
    && Summarizes(s, Joint(base, cand), base, cand)
    && s.mcnemarP == Ok(PValue(s.total.gained, s.total.lost))
    && s.baseJudged == |Judged(base)| && s.candJudged == |Judged(cand)|
  }

  /** The type a question goes by: what the candidate calls it, else what the baseline does, else "unknown". */
  predicate GoesBy(base: Records, cand: Records, q: string, t: string)
    requires q in base && q in cand
  {
    var b, c := base[q].questionType, cand[q].questionType;
    (c != "" && t == c) || (c == "" && b != "" && t == b) || (c == "" && b == "" && t == "unknown")
  }

  /** Either file flags it, or its id ends in "_abs". */
  predicate Abstains(base: Records, cand: Records, q: string)
    requires q in base && q in cand
  {
    base[q].flaggedAbstention || cand[q].flaggedAbstention || (|q| >= 4 && q[|q| - 4..] == "_abs")
  }

  function GoingBy(base: Records, cand: Records, t: string): set<string> {
    set q | q in Joint(base, cand) && GoesBy(base, cand, q, t)
  }

  function Abstaining(base: Records, cand: Records): set<string> {
    set q | q in Joint(base, cand) && Abstains(base, cand, q)
  }

  lemma TypesAreNames(base: Records, cand: Records, t: string)
    ensures OfType(Joint(base, cand), base, cand, t) == GoingBy(base, cand, t)
  {
  }

  lemma AbstentionsAbstain(base: Records, cand: Records)
    ensures Abstentions(Joint(base, cand), base, cand) == Abstaining(base, cand)
  {
    assert |ABSTENTION_SUFFIX| == 4;
  }

  lemma TypeBucket(perType: map<string, Bucket>, ids: set<string>, base: Records, cand: Records, t: string)
    requires ids <= Joint(base, cand) && TypesTallied(perType, ids, base, cand)
    ensures t in perType <==> OfType(ids, base, cand, t) != {}
    ensures t in perType ==> perType[t] == Tally(OfType(ids, base, cand, t), base, cand)
  {
    if t in perType {
      assert TypeTallied(perType, ids, base, cand, t);
    }
  }

  /** There is a bucket for exactly the types some question goes by, and it tallies the questions that do. */
  lemma TypeBucketMeansItsName(s: Summary, base: Records, cand: Records, t: string)
    requires Compares(s, base, cand)
    ensures t in s.perType <==> GoingBy(base, cand, t) != {}
    ensures t in s.perType ==> s.perType[t] == Tally(GoingBy(base, cand, t), base, cand)
  {
    TypeBucket(s.perType, Joint(base, cand), base, cand, t);
    TypesAreNames(base, cand, t);
  }

  /** The abstention bucket tallies the questions that either file flags or whose id says so. */
  lemma AbstentionBucketMeansItsName(s: Summary, base: Records, cand: Records)
    requires Compares(s, base, cand)
    ensures s.abstention == Tally(Abstaining(base, cand), base, cand)
  {
    AbstentionsAbstain(base, cand);
  }

  method CompareRecords(base: Records, cand: Records) returns (s: Summary)
    ensures Compares(s, base, cand)
    ensures s.total.n <= s.baseJudged && s.total.n <= s.candJudged
  {
    s := VisitAll(base, cand);
    var p := ExactMcnemarP(s.total.gained, s.total.lost);
    var baseJudged := CountJudged(base);
    var candJudged := CountJudged(cand);
    s := Summary(s.total, s.perType, s.abstention, p, baseJudged, candJudged);
    JointIsShared(base, cand);
  }

  method CountJudged(rows: Records) returns (n: nat)
    ensures n == |Judged(rows)|
  {
    var ids := SortedIds(rows.Keys);
    n := 0;
    assert Members(ids[..0]) == {};
    for i := 0 to |ids|
      invariant n == |JudgedAmong(Members(ids[..i]), rows)|
    {
      NextMember(ids, i);
      GrowJudged(Members(ids[..i]), ids[i], rows);
      if rows[ids[i]].verdict != NotJudged {
        n := n + 1;
      }
    }
    assert ids[..|ids|] == ids;
    assert Members(ids) == rows.Keys;
    assert JudgedAmong(rows.Keys, rows) == Judged(rows);
  }

  function JudgedAmong(ids: set<string>, rows: Records): set<string> {
    set q | q in ids && q in rows && rows[q].verdict != NotJudged
  }

  lemma GrowJudged(ids: set<string>, q: string, rows: Records)
    requires q !in ids && q in rows
    ensures |JudgedAmong(ids + {q}, rows)| == |JudgedAmong(ids, rows)| + (if rows[q].verdict != NotJudged then 1 else 0)
  {
    assert JudgedAmong(ids + {q}, rows)
        == if rows[q].verdict != NotJudged then JudgedAmong(ids, rows) + {q} else JudgedAmong(ids, rows);
  }

  lemma SubsetCount(a: set<string>, b: set<string>)
    requires a <= b
    ensures |a| <= |b|
  {
    assert b == a + (b - a);
  }

  /** The compared questions are those judged in both files. */
  lemma JointIsShared(base: Records, cand: Records)
    ensures Joint(base, cand) == Judged(base) * Judged(cand)
    ensures |Joint(base, cand)| <= |Judged(base)| && |Joint(base, cand)| <= |Judged(cand)|
  {
    SubsetCount(Joint(base, cand), Judged(base));
    SubsetCount(Joint(base, cand), Judged(cand));
  }

  method VisitAll(base: Records, cand: Records) returns (s: Summary)
    ensures Summarizes(s, Joint(base, cand), base, cand)
  {
    var ids := SortedIds(Joint(base, cand));
    s := VisitInOrder(ids, base, cand);
    assert Members(ids) == Joint(base, cand);
  }

  method VisitInOrder(ids: seq<string>, base: Records, cand: Records) returns (s: Summary)
    requires Distinct(ids) && Members(ids) <= Joint(base, cand)
    ensures Summarizes(s, Members(ids), base, cand)
  {
    s := NOTHING;
    NothingTallied(base, cand);
    assert Members(ids[..0]) == {};
    for i := 0 to |ids|
      invariant Members(ids[..i]) <= Joint(base, cand)
      invariant Summarizes(s, Members(ids[..i]), base, cand)
    {
      NextMember(ids, i);
      s := VisitQuestion(s, ids[i], base, cand, Members(ids[..i]));
    }
    assert ids[..|ids|] == ids;
  }

  const NOTHING := Summary(EMPTY, map[], EMPTY, ValueError, 0, 0)

  lemma NothingTallied(base: Records, cand: Records)
    ensures Summarizes(NOTHING, {}, base, cand)
  {
    EmptyTally(base, cand);
    assert Abstentions({}, base, cand) == {};
  }

  method VisitQuestion(before: Summary, q: string, base: Records, cand: Records, ghost done: set<string>)
    returns (s: Summary)
    requires done + {q} <= Joint(base, cand) && q !in done
    requires Summarizes(before, done, base, cand)
    ensures Summarizes(s, done + {q}, base, cand)
  {
    var baseOk, candOk := base[q].verdict == Correct, cand[q].verdict == Correct;
    var t := TypeOf(base, cand, q);
    var bucket := Added(if t in before.perType then before.perType[t] else EMPTY, baseOk, candOk);
    var abstention := before.abstention;
    if IsAbstention(cand[q], q) || IsAbstention(base[q], q) {
      abstention := Added(abstention, baseOk, candOk);
    }
    s := before.(total := Added(before.total, baseOk, candOk), perType := before.perType[t := bucket],
                 abstention := abstention);
    GrowTally(done, q, base, cand);
    GrowAbstentions(done, q, base, cand);
    GrowTypes(before.perType, done, q, base, cand);
  }

  lemma EmptyTally(base: Records, cand: Records)
    ensures Tally({}, base, cand) == EMPTY
  {
  }

  lemma GrowCell(ids: set<string>, q: string, base: Records, cand: Records, b: bool, c: bool)
    requires q !in ids
    ensures Cell(ids + {q}, base, cand, b, c) == Cell(ids, base, cand, b, c) + (if Holds(base, cand, q, b, c) then 1 else 0)
  {
    var old_ := set x | x in ids && Holds(base, cand, x, b, c);
    var new_ := set x | x in ids + {q} && Holds(base, cand, x, b, c);
    assert new_ == if Holds(base, cand, q, b, c) then old_ + {q} else old_;
  }

  lemma GrowTally(ids: set<string>, q: string, base: Records, cand: Records)
    requires q !in ids && q in Joint(base, cand)
    ensures Tally(ids + {q}, base, cand)
         == Added(Tally(ids, base, cand), base[q].verdict == Correct, cand[q].verdict == Correct)
  {
    GrowCell(ids, q, base, cand, true, true);
    GrowCell(ids, q, base, cand, false, false);
    GrowCell(ids, q, base, cand, false, true);
    GrowCell(ids, q, base, cand, true, false);
  }

  lemma GrowType(ids: set<string>, q: string, base: Records, cand: Records, t: string)
    requires ids + {q} <= Joint(base, cand) && q !in ids
    ensures OfType(ids + {q}, base, cand, t)
         == (if TypeOf(base, cand, q) == t then OfType(ids, base, cand, t) + {q} else OfType(ids, base, cand, t))
  {
  }

  lemma GrowAbstentions(ids: set<string>, q: string, base: Records, cand: Records)
    requires ids + {q} <= Joint(base, cand) && q !in ids
    ensures var t := Tally(Abstentions(ids, base, cand), base, cand);
            Tally(Abstentions(ids + {q}, base, cand), base, cand)
            == (if IsAbstention(cand[q], q) || IsAbstention(base[q], q)
                then Added(t, base[q].verdict == Correct, cand[q].verdict == Correct) else t)
  {
    var some := Abstentions(ids, base, cand);
    GrowTally(some, q, base, cand);
    assert Abstentions(ids + {q}, base, cand)
        == if IsAbstention(cand[q], q) || IsAbstention(base[q], q) then some + {q} else some;
  }

  lemma GrowTypes(perType: map<string, Bucket>, ids: set<string>, q: string, base: Records, cand: Records)
    requires ids + {q} <= Joint(base, cand) && q !in ids
    requires TypesTallied(perType, ids, base, cand)
    ensures var u := TypeOf(base, cand, q);
            TypesTallied(perType[u := Added(if u in perType then perType[u] else EMPTY,
                                            base[q].verdict == Correct, cand[q].verdict == Correct)],
                         ids + {q}, base, cand)
  {
    var u := TypeOf(base, cand, q);
    var after := perType[u := Added(if u in perType then perType[u] else EMPTY,
                                    base[q].verdict == Correct, cand[q].verdict == Correct)];
    forall t | t in after
      ensures TypeTallied(after, ids + {q}, base, cand, t)
    {
      if t == u {
        GrowSameType(perType, ids, q, base, cand);
      } else {
        assert TypeTallied(perType, ids, base, cand, t);
        GrowType(ids, q, base, cand, t);
      }
    }
  }

  lemma GrowSameType(perType: map<string, Bucket>, ids: set<string>, q: string, base: Records, cand: Records)
    requires ids + {q} <= Joint(base, cand) && q !in ids
    requires TypesTallied(perType, ids, base, cand)
    ensures var u := TypeOf(base, cand, q);
            && OfType(ids + {q}, base, cand, u) != {}
            && Tally(OfType(ids + {q}, base, cand, u), base, cand)
               == Added(if u in perType then perType[u] else EMPTY, base[q].verdict == Correct, cand[q].verdict == Correct)
  {
    var u := TypeOf(base, cand, q);
    GrowType(ids, q, base, cand, u);
    GrowTally(OfType(ids, base, cand, u), q, base, cand);
    assert q in OfType(ids + {q}, base, cand, u);
    if u in perType {
      assert TypeTallied(perType, ids, base, cand, u);
    } else {
      assert OfType(ids, base, cand, u) == {};
      EmptyTally(base, cand);
    }
  }

  // ---------- what the numbers mean ----------

  /** The questions of a file answered correctly. */
  function CorrectIn(ids: set<string>, rows: Records): set<string>
    requires ids <= rows.Keys
  {
    set q | q in ids && rows[q].verdict == Correct
  }

  lemma {:induction false} CellsSum(ids: set<string>, base: Records, cand: Records)
    requires ids <= Joint(base, cand)
    ensures var t := Tally(ids, base, cand); t.bothRight + t.bothWrong + t.gained + t.lost == t.n
    decreases |ids|
  {
    if ids == {} {
      EmptyTally(base, cand);
    } else {
      var q :| q in ids;
      assert (ids - {q}) + {q} == ids;
      CellsSum(ids - {q}, base, cand);
      GrowTally(ids - {q}, q, base, cand);
    }
  }

  lemma {:induction false} CellsCorrect(ids: set<string>, base: Records, cand: Records)
    requires ids <= Joint(base, cand)
    ensures Tally(ids, base, cand).BaseCorrect() == |CorrectIn(ids, base)|
    ensures Tally(ids, base, cand).CandCorrect() == |CorrectIn(ids, cand)|
    decreases |ids|
  {
    if ids == {} {
      EmptyTally(base, cand);
      assert CorrectIn(ids, base) == {} && CorrectIn(ids, cand) == {};
    } else {
      var q :| q in ids;
      assert (ids - {q}) + {q} == ids;
      CellsCorrect(ids - {q}, base, cand);
      GrowTally(ids - {q}, q, base, cand);
      CorrectGrows(ids - {q}, q, base);
      CorrectGrows(ids - {q}, q, cand);
    }
  }

  /** The four cells partition the compared questions, so the numbers of correct answers differ exactly by
      the net flips. */
  lemma CellsPartition(base: Records, cand: Records)
    ensures var ids := Joint(base, cand);
            var t := Tally(ids, base, cand);
            && t.bothRight + t.bothWrong + t.gained + t.lost == t.n == |ids|
            && |CorrectIn(ids, cand)| - |CorrectIn(ids, base)| == t.gained - t.lost
  {
    CellsSum(Joint(base, cand), base, cand);
    CellsCorrect(Joint(base, cand), base, cand);
  }

  lemma CorrectGrows(rest: set<string>, q: string, rows: Records)
    requires q !in rest && rest + {q} <= rows.Keys
    ensures |CorrectIn(rest + {q}, rows)| == |CorrectIn(rest, rows)| + (if rows[q].verdict == Correct then 1 else 0)
  {
    assert CorrectIn(rest + {q}, rows)
        == if rows[q].verdict == Correct then CorrectIn(rest, rows) + {q} else CorrectIn(rest, rows);
  }

  /** The files never name two different types for one question. */
  ghost predicate TypesAgree(ids: set<string>, base: Records, cand: Records)
    requires ids <= Joint(base, cand)
  {
    forall q :: q in ids && base[q].questionType != "" && cand[q].questionType != "" ==>
                  base[q].questionType == cand[q].questionType
  }

  /** Every type of one map is in the other, with gains and losses exchanged. */
  predicate ExchangedIn(a: map<string, Bucket>, b: map<string, Bucket>) {
    forall t :: t in a ==> t in b && b[t] == a[t].Exchanged()
  }

  lemma SwappedTally(ids: set<string>, base: Records, cand: Records)
    ensures Tally(ids, cand, base) == Tally(ids, base, cand).Exchanged()
  {
    SwappedCell(ids, base, cand, true, true);
    SwappedCell(ids, base, cand, false, false);
    SwappedCell(ids, base, cand, true, false);
    SwappedCell(ids, base, cand, false, true);
  }

  lemma SwappedJoint(base: Records, cand: Records)
    ensures Joint(cand, base) == Joint(base, cand)
  {
  }

  lemma SameTypes(ids: set<string>, base: Records, cand: Records, t: string)
    requires ids <= Joint(base, cand) && ids <= Joint(cand, base) && TypesAgree(ids, base, cand)
    ensures OfType(ids, cand, base, t) == OfType(ids, base, cand, t)
  {
  }

  lemma SwappedType(a: map<string, Bucket>, b: map<string, Bucket>, ids: set<string>, base: Records, cand: Records,
                    t: string)
    requires ids <= Joint(base, cand) && ids <= Joint(cand, base) && TypesAgree(ids, base, cand)
    requires TypeTallied(a, ids, base, cand, t) && TypesTallied(b, ids, cand, base)
    ensures t in b && b[t] == a[t].Exchanged()
  {
    SameTypes(ids, base, cand, t);
    var q :| q in OfType(ids, cand, base, t);
    assert TypeOf(cand, base, q) == t && TypeTallied(b, ids, cand, base, t);
    SwappedTally(OfType(ids, base, cand, t), base, cand);
  }

  lemma SwappedTypes(a: map<string, Bucket>, b: map<string, Bucket>, ids: set<string>, base: Records, cand: Records)
    requires ids <= Joint(base, cand) && ids <= Joint(cand, base) && TypesAgree(ids, base, cand)
    requires TypesTallied(a, ids, base, cand) && TypesTallied(b, ids, cand, base)
    ensures ExchangedIn(a, b)
  {
    forall t | t in a
      ensures t in b && b[t] == a[t].Exchanged()
    {
      assert TypeTallied(a, ids, base, cand, t);
      SwappedType(a, b, ids, base, cand, t);
    }
  }

  lemma AgreementIsSymmetric(ids: set<string>, base: Records, cand: Records)
    requires ids <= Joint(base, cand) && ids <= Joint(cand, base) && TypesAgree(ids, base, cand)
    ensures TypesAgree(ids, cand, base)
  {
  }

  lemma SwappedAbstentions(ids: set<string>, base: Records, cand: Records)
    requires ids <= Joint(base, cand) && ids <= Joint(cand, base)
    ensures Tally(Abstentions(ids, cand, base), cand, base) == Tally(Abstentions(ids, base, cand), base, cand).Exchanged()
  {
    assert Abstentions(ids, cand, base) == Abstentions(ids, base, cand);
    SwappedTally(Abstentions(ids, base, cand), base, cand);
  }

  /** Exchanging baseline and candidate compares the same questions, exchanges gains and losses in the total and
      the abstention bucket, and keeps the p-value; so does every type's bucket, where the files agree on types. */
  lemma SwappedRuns(s: Summary, u: Summary, base: Records, cand: Records)
    requires Compares(s, base, cand) && Compares(u, cand, base)
    ensures Joint(cand, base) == Joint(base, cand)
    ensures u.total == s.total.Exchanged() && u.abstention == s.abstention.Exchanged() && u.mcnemarP == s.mcnemarP
    ensures u.baseJudged == s.candJudged && u.candJudged == s.baseJudged
    ensures TypesAgree(Joint(base, cand), base, cand) ==>
              ExchangedIn(s.perType, u.perType) && ExchangedIn(u.perType, s.perType)
  {
    var ids := Joint(base, cand);
    SwappedJoint(base, cand);
    SwappedTally(ids, base, cand);
    SwappedAbstentions(ids, base, cand);
    PValueIsSymmetric(s.total.gained, s.total.lost);
    if TypesAgree(ids, base, cand) {
      SwappedTypes(s.perType, u.perType, ids, base, cand);
      AgreementIsSymmetric(ids, base, cand);
      SwappedTypes(u.perType, s.perType, ids, cand, base);
    }
  }

  lemma SwappedCell(ids: set<string>, base: Records, cand: Records, b: bool, c: bool)
    ensures Cell(ids, cand, base, c, b) == Cell(ids, base, cand, b, c)
  {
    assert (set q | q in ids && Holds(cand, base, q, c, b)) == (set q | q in ids && Holds(base, cand, q, b, c));
  }
}
