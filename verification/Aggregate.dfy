/** The numbers of a run report: they depend on which records a report holds, not on their order. */
module Aggregate {
  import opened Text
  import opened Lists
  import opened Wrappers
  import Checkpoint
  import Ids

  datatype Retrieval = Retrieval(seconds: real, chars: int, tokens: int, vector: bool)

  /** The fields of a result record that the aggregation reads. `judge` is None for a record that was not
      judged, else whether the judge said "correct". */
  datatype Result = Result(id: string, ok: bool, questionType: string, judge: Option<bool>, abstention: bool,
                           retrieval: Option<Retrieval>, ingestSeconds: Option<real>, error: string)

  datatype Bucket = Bucket(questions: nat, correct: nat, accuracy: Option<real>)

  datatype Summary = Summary(
    questions: nat, ok: nat, errors: nat, overall: Bucket, abstention: Bucket, nonAbstention: Bucket,
    perType: map<string, Bucket>, charsMean: Option<real>, tokensMean: Option<real>,
    secondsP50: Option<real>, secondsP95: Option<real>, ingestMean: Option<real>, vectorShare: Option<real>,
    failures: seq<(string, string)>)

  predicate IsOk(r: Result) { r.ok }
  predicate IsError(r: Result) { !r.ok }
  predicate IsJudged(r: Result) { r.judge.Some? }
  predicate IsCorrect(r: Result) { r.judge == Some(true) }
  predicate IsAbstention(r: Result) { r.abstention }
  predicate IsAnswerable(r: Result) { !r.abstention }
  predicate IsRetrieved(r: Result) { r.retrieval.Some? }
  predicate IsIngested(r: Result) { r.ingestSeconds.Some? }
  predicate UsedVectors(r: Result) { r.retrieval.Some? && r.retrieval.value.vector }

  function OfType(t: string): Result -> bool {
    (r: Result) => r.questionType == t
  }

  function Chars(r: Result): real { if r.retrieval.Some? then r.retrieval.value.chars as real else 0.0 }
  function Tokens(r: Result): real { if r.retrieval.Some? then r.retrieval.value.tokens as real else 0.0 }
  function Seconds(r: Result): real { if r.retrieval.Some? then r.retrieval.value.seconds else 0.0 }
  function IngestSeconds(r: Result): real { if r.ingestSeconds.Some? then r.ingestSeconds.value else 0.0 }
  function Failure(r: Result): (string, string) { (r.id, r.error) }

  // ---------- percentiles ----------

  predicate AtMostReal(a: real, b: real) {
    a <= b
  }

  function CeilDiv(a: int, b: int): int
    requires b > 0
  {
    (a + b - 1) / b
  }

  function PercentileIndex(n: nat, percent: int): (k: nat)
    requires n > 0
    ensures k < n
  {
    var rank := CeilDiv(percent * n, 100) - 1;
    if rank < 0 then 0 else if rank > n - 1 then n - 1 else rank
  }

  function Percentile(values: seq<real>, percent: int): Option<real> {
    if |values| == 0 then None
    else
      SortPermutes(values, AtMostReal);
      Some(Sort(values, AtMostReal)[PercentileIndex(|values|, percent)])
  }

  function UpTo(v: real): real -> bool {
    (x: real) => x <= v
  }

  function Below(v: real): real -> bool {
    (x: real) => x < v
  }

  lemma {:induction false} AllPass<T>(p: T -> bool, s: seq<T>)
    requires forall x :: x in s ==> p(x)
    ensures |Filter(p, s)| == |s|
  {
    if |s| > 0 {
      AllPass(p, s[..|s| - 1]);
    }
  }

  lemma {:induction false} NonePass<T>(p: T -> bool, s: seq<T>)
    requires forall x :: x in s ==> !p(x)
    ensures |Filter(p, s)| == 0
  {
    if |s| > 0 {
      NonePass(p, s[..|s| - 1]);
    }
  }

  lemma IndexIsRank(n: nat, percent: int)
    requires n > 0 && 0 < percent <= 100
    ensures 100 * PercentileIndex(n, percent) < percent * n <= 100 * (PercentileIndex(n, percent) + 1)
  {
    var asked := percent * n;
    assert 0 < asked <= 100 * n;
    assert 1 <= CeilDiv(asked, 100) <= n;
  }

  lemma CountUpTo(sorted: seq<real>, k: nat)
    requires SortedBy(sorted, AtMostReal) && k < |sorted|
    ensures |Filter(UpTo(sorted[k]), sorted)| >= k + 1
  {
    var p, low, high := UpTo(sorted[k]), sorted[..k + 1], sorted[k + 1..];
    assert sorted == low + high;
    FilterConcat(p, low, high);
    forall x | x in low
      ensures p(x)
    {
      var i :| 0 <= i <= k && sorted[i] == x;
      assert i < k ==> AtMostReal(sorted[i], sorted[k]);
    }
    AllPass(p, low);
  }

  lemma CountBelow(sorted: seq<real>, k: nat)
    requires SortedBy(sorted, AtMostReal) && k < |sorted|
    ensures |Filter(Below(sorted[k]), sorted)| <= k
  {
    var p, low, high := Below(sorted[k]), sorted[..k], sorted[k..];
    assert sorted == low + high;
    FilterConcat(p, low, high);
    forall x | x in high
      ensures !p(x)
    {
      var i :| k <= i < |sorted| && sorted[i] == x;
      assert k < i ==> AtMostReal(sorted[k], sorted[i]);
    }
    NonePass(p, high);
  }

  /** The nearest-rank percentile: a value of the list which at least the asked share of the values does not
      exceed, and below which lies less than that share. */
  lemma PercentileIsNearestRank(values: seq<real>, percent: int)
    requires |values| > 0 && 0 < percent <= 100
    ensures var v := Percentile(values, percent).value;
            && v in values
            && 100 * |Filter(UpTo(v), values)| >= percent * |values|
            && 100 * |Filter(Below(v), values)| < percent * |values|
  {
    var sorted, k := Sort(values, AtMostReal), PercentileIndex(|values|, percent);
    SortPermutes(values, AtMostReal);
    SortSorted(values, AtMostReal);
    var v := sorted[k];
    SortMembers(values, AtMostReal, v);
    FilterPermutes(UpTo(v), values, sorted);
    FilterPermutes(Below(v), values, sorted);
    CountUpTo(sorted, k);
    CountBelow(sorted, k);
    IndexIsRank(|values|, percent);
  }

  // ---------- the aggregation ----------

  function Mean(values: seq<real>): Option<real> {
    if |values| == 0 then None else Some(Sum(values) / |values| as real)
  }

  function Share(part: nat, whole: nat): Option<real> {
    if whole == 0 then None else Some(part as real / whole as real)
  }

  function AccuracyBucket(rows: seq<Result>): Bucket {
    var judged := Filter(IsJudged, rows);
    var correct := |Filter(IsCorrect, judged)|;
    Bucket(|judged|, correct, Share(correct, |judged|))
  }

  function Types(rows: seq<Result>): set<string> {
    set i | 0 <= i < |rows| :: rows[i].questionType
  }

  function PerType(rows: seq<Result>): map<string, Bucket> {
    map t | t in Types(rows) :: AccuracyBucket(Filter(OfType(t), rows))
  }

  function Aggregated(rows: seq<Result>): Summary {
    var ok, errors := Filter(IsOk, rows), Filter(IsError, rows);
    var retrieved, ingested := Filter(IsRetrieved, ok), Filter(IsIngested, ok);
    Summary(|rows|, |ok|, |errors|, AccuracyBucket(ok),
            AccuracyBucket(Filter(IsAbstention, ok)), AccuracyBucket(Filter(IsAnswerable, ok)), PerType(ok),
            Mean(Map(Chars, retrieved)), Mean(Map(Tokens, retrieved)),
            Percentile(Map(Seconds, retrieved), 50), Percentile(Map(Seconds, retrieved), 95),
            Mean(Map(IngestSeconds, ingested)), Share(|Filter(UsedVectors, ok)|, |ok|),
            Map(Failure, errors))
  }

  method GroupByType(rows: seq<Result>) returns (perType: map<string, Bucket>)
    ensures perType == PerType(rows)
  {
    var groups: map<string, seq<Result>> := map[];
    for i := 0 to |rows|
      invariant groups.Keys == Types(rows[..i])
      invariant forall t :: t in groups ==> groups[t] == Filter(OfType(t), rows[..i])
    {
      var t := rows[i].questionType;
      GroupStep(rows, i);
      groups := groups[t := (if t in groups then groups[t] else []) + [rows[i]]];
    }
    assert rows[..|rows|] == rows;
    perType := map t | t in groups :: AccuracyBucket(groups[t]);
  }

  lemma GroupStep(rows: seq<Result>, i: nat)
    requires i < |rows|
    ensures Types(rows[..i + 1]) == Types(rows[..i]) + {rows[i].questionType}
    ensures forall t :: Filter(OfType(t), rows[..i + 1])
                     == Filter(OfType(t), rows[..i]) + if t == rows[i].questionType then [rows[i]] else []
    ensures rows[i].questionType !in Types(rows[..i]) ==> Filter(OfType(rows[i].questionType), rows[..i]) == []
  {
    var before, after := rows[..i], rows[..i + 1];
    assert after[..i] == before && after[i] == rows[i];
    assert after == before + [rows[i]];
    if rows[i].questionType !in Types(before) {
      forall r | r in before
        ensures r.questionType != rows[i].questionType
      {
        var k :| 0 <= k < |before| && before[k] == r;
      }
      NonePass(OfType(rows[i].questionType), before);
    }
  }

  // ---------- the numbers partition the records ----------

  lemma {:induction false} FilterSplits<T>(p: T -> bool, n: T -> bool, s: seq<T>)
    requires forall x :: x in s ==> p(x) != n(x)
    ensures |Filter(p, s)| + |Filter(n, s)| == |s|
  {
    if |s| > 0 {
      FilterSplits(p, n, s[..|s| - 1]);
    }
  }

  lemma {:induction false} FilterTwice<T>(p: T -> bool, r: T -> bool, both: T -> bool, s: seq<T>)
    requires forall x :: x in s ==> both(x) == (p(x) && r(x))
    ensures Filter(r, Filter(p, s)) == Filter(both, s)
  {
    if |s| > 0 {
      var n := |s| - 1;
      FilterTwice(p, r, both, s[..n]);
      FilterConcat(r, Filter(p, s[..n]), if p(s[n]) then [s[n]] else []);
      FilterOne(r, s[n]);
    }
  }

  function And<T>(p: T -> bool, r: T -> bool): T -> bool {
    (x: T) => p(x) && r(x)
  }

  /** Splitting records by any property splits their judged and their correct ones. */
  lemma BucketSplits(p: Result -> bool, n: Result -> bool, rows: seq<Result>)
    requires forall r :: r in rows ==> p(r) != n(r)
    ensures var whole, a, b := AccuracyBucket(rows), AccuracyBucket(Filter(p, rows)), AccuracyBucket(Filter(n, rows));
            a.questions + b.questions == whole.questions && a.correct + b.correct == whole.correct
  {
    CountSplits(p, n, IsJudged, rows);
    CorrectIsJudged(rows);
    CorrectIsJudged(Filter(p, rows));
    CorrectIsJudged(Filter(n, rows));
    CountSplits(p, n, IsCorrect, rows);
  }

  lemma CorrectIsJudged(rows: seq<Result>)
    ensures AccuracyBucket(rows).correct == |Filter(IsCorrect, rows)|
  {
    FilterTwice(IsJudged, IsCorrect, IsCorrect, rows);
  }

  lemma {:induction false} CountSplits(p: Result -> bool, n: Result -> bool, r: Result -> bool, rows: seq<Result>)
    requires forall x :: x in rows ==> p(x) != n(x)
    ensures |Filter(r, Filter(p, rows))| + |Filter(r, Filter(n, rows))| == |Filter(r, rows)|
  {
    FilterTwice(p, r, And(p, r), rows);
    FilterTwice(n, r, And(n, r), rows);
    FilterTwice(r, p, And(p, r), rows);
    FilterTwice(r, n, And(n, r), rows);
    FilterMembers(r, rows);
    FilterSplits(p, n, Filter(r, rows));
  }

  lemma {:induction false} FilterMembers<T>(p: T -> bool, s: seq<T>)
    ensures forall x :: x in Filter(p, s) ==> x in s && p(x)
  {
    if |s| > 0 {
      FilterMembers(p, s[..|s| - 1]);
    }
  }

  /** The sums over the listed types. */
  function TypeQuestions(ts: seq<string>, perType: map<string, Bucket>): nat
    requires forall t :: t in ts ==> t in perType
  {
    if |ts| == 0 then 0 else TypeQuestions(ts[..|ts| - 1], perType) + perType[ts[|ts| - 1]].questions
  }

  function TypeCorrect(ts: seq<string>, perType: map<string, Bucket>): nat
    requires forall t :: t in ts ==> t in perType
  {
    if |ts| == 0 then 0 else TypeCorrect(ts[..|ts| - 1], perType) + perType[ts[|ts| - 1]].correct
  }

  function TypeAmong(ts: seq<string>): Result -> bool {
    (r: Result) => r.questionType in ts
  }

  function TypeBeyond(ts: seq<string>): Result -> bool {
    (r: Result) => r.questionType !in ts
  }

  lemma {:induction false} ListedTypesSum(rows: seq<Result>, ts: seq<string>)
    requires Ids.Distinct(ts) && forall t :: t in ts ==> t in PerType(rows)
    ensures TypeQuestions(ts, PerType(rows)) == AccuracyBucket(Filter(TypeAmong(ts), rows)).questions
    ensures TypeCorrect(ts, PerType(rows)) == AccuracyBucket(Filter(TypeAmong(ts), rows)).correct
  {
    if |ts| == 0 {
      NonePass(TypeAmong(ts), rows);
    } else {
      var n := |ts| - 1;
      var before, t := ts[..n], ts[n];
      assert ts == before + [t] && t !in before;
      ListedTypesSum(rows, before);
      var among := Filter(TypeAmong(ts), rows);
      FilterMembers(TypeAmong(ts), rows);
      FilterTwice(TypeAmong(ts), TypeAmong(before), TypeAmong(before), rows);
      FilterTwice(TypeAmong(ts), OfType(t), OfType(t), rows);
      BucketSplits(TypeAmong(before), OfType(t), among);
    }
  }

  /** The buckets of all types together are the overall bucket. */
  lemma TypesPartition(rows: seq<Result>, ts: seq<string>)
    requires Ids.Distinct(ts) && forall t :: t in ts <==> t in PerType(rows)
    ensures TypeQuestions(ts, PerType(rows)) == AccuracyBucket(rows).questions
    ensures TypeCorrect(ts, PerType(rows)) == AccuracyBucket(rows).correct
  {
    ListedTypesSum(rows, ts);
    forall r | r in rows
      ensures r.questionType in ts
    {
      var i :| 0 <= i < |rows| && rows[i] == r;
      assert r.questionType in Types(rows);
    }
    AllKept(TypeAmong(ts), rows);
  }

  lemma {:induction false} AllKept<T>(p: T -> bool, s: seq<T>)
    requires forall x :: x in s ==> p(x)
    ensures Filter(p, s) == s
  {
    if |s| > 0 {
      AllKept(p, s[..|s| - 1]);
      assert s == s[..|s| - 1] + [s[|s| - 1]];
    }
  }

  /** Errors and answers make up the records, abstentions and the rest the judged answers, and so do the types. */
  ghost predicate Partitions(s: Summary) {
    && s.ok + s.errors == s.questions
    && s.abstention.questions + s.nonAbstention.questions == s.overall.questions
    && s.abstention.correct + s.nonAbstention.correct == s.overall.correct
    && forall ts :: ListsTypes(ts, s.perType) ==>
         TypeQuestions(ts, s.perType) == s.overall.questions && TypeCorrect(ts, s.perType) == s.overall.correct
  }

  /** Every type of the map, each once. */
  predicate ListsTypes(ts: seq<string>, perType: map<string, Bucket>) {
    Ids.Distinct(ts) && (forall t :: t in ts ==> t in perType) && forall t :: t in perType ==> t in ts
  }

  lemma AggregatedPartitions(rows: seq<Result>)
    ensures Partitions(Aggregated(rows))
  {
    var s, ok := Aggregated(rows), Filter(IsOk, rows);
    FilterSplits(IsOk, IsError, rows);
    BucketSplits(IsAbstention, IsAnswerable, ok);
    forall ts | ListsTypes(ts, s.perType)
      ensures TypeQuestions(ts, s.perType) == s.overall.questions && TypeCorrect(ts, s.perType) == s.overall.correct
    {
      TypesPartition(ok, ts);
    }
  }

  // ---------- what the numbers count ----------

  function Answered(): Result -> bool { (r: Result) => r.ok }
  function Failed(): Result -> bool { (r: Result) => !r.ok }
  function AnsweredAbstention(): Result -> bool { (r: Result) => r.ok && r.abstention }
  function AnsweredOther(): Result -> bool { (r: Result) => r.ok && !r.abstention }
  function AnsweredOfType(t: string): Result -> bool { (r: Result) => r.ok && r.questionType == t }
  function Measured(): Result -> bool { (r: Result) => r.ok && r.retrieval.Some? }
  function WithVectors(): Result -> bool { (r: Result) => r.ok && r.retrieval.Some? && r.retrieval.value.vector }
  function Timed(): Result -> bool { (r: Result) => r.ok && r.ingestSeconds.Some? }
  function Judged(of: Result -> bool): Result -> bool { (r: Result) => of(r) && r.judge.Some? }
  function Right(of: Result -> bool): Result -> bool { (r: Result) => of(r) && r.judge == Some(true) }

  /** The bucket counts the judged records of a kind and those judged correct, and their share. */
  predicate Counts(b: Bucket, of: Result -> bool, rows: seq<Result>) {
    && b.questions == |Filter(Judged(of), rows)| && b.correct == |Filter(Right(of), rows)|
    && b.accuracy == if b.questions == 0 then None else Some(b.correct as real / b.questions as real)
  }

  predicate Averages(v: Option<real>, values: seq<real>) {
    if values == [] then v == None else v == Some(Sum(values) / |values| as real)
  }

  /** At least the asked share of the values is at most v, and less than that share is below it. */
  predicate IsPercentile(v: Option<real>, values: seq<real>, percent: int) {
    if values == [] then v == None
    else
      && v.Some? && v.value in values
      && 100 * |Filter(UpTo(v.value), values)| >= percent * |values|
      && 100 * |Filter(Below(v.value), values)| < percent * |values|
  }

  /** Every number of the summary, in terms of the fields of the records. */
  ghost predicate Counted(s: Summary, rows: seq<Result>) {
    && s.questions == |rows| && s.ok == |Filter(Answered(), rows)| && s.errors == |Filter(Failed(), rows)|
    && Counts(s.overall, Answered(), rows)
    && Counts(s.abstention, AnsweredAbstention(), rows) && Counts(s.nonAbstention, AnsweredOther(), rows)
    && (forall t :: t in s.perType <==> exists r :: r in rows && r.ok && r.questionType == t)
    && (forall t :: t in s.perType ==> Counts(s.perType[t], AnsweredOfType(t), rows))
  }

  ghost predicate Timings(s: Summary, rows: seq<Result>) {
    var measured, timed := Filter(Measured(), rows), Filter(Timed(), rows);
    && Averages(s.charsMean, Map(Chars, measured)) && Averages(s.tokensMean, Map(Tokens, measured))
    && IsPercentile(s.secondsP50, Map(Seconds, measured), 50) && IsPercentile(s.secondsP95, Map(Seconds, measured), 95)
    && Averages(s.ingestMean, Map(IngestSeconds, timed))
    && s.vectorShare == (if s.ok == 0 then None else Some(|Filter(WithVectors(), rows)| as real / s.ok as real))
  }

  /** The failures are those of the failed records, each with its own id and error. */
  predicate ListsFailures(failures: seq<(string, string)>, failed: seq<Result>) {
    && |failures| == |failed|
    && forall i :: 0 <= i < |failed| ==> failures[i] == (failed[i].id, failed[i].error)
  }

  lemma FieldsAreRead(r: Result)
    ensures r.retrieval.Some? ==>
              && Chars(r) == r.retrieval.value.chars as real && Tokens(r) == r.retrieval.value.tokens as real
              && Seconds(r) == r.retrieval.value.seconds
    ensures r.ingestSeconds.Some? ==> IngestSeconds(r) == r.ingestSeconds.value
  {
  }

  lemma {:induction false} SameFilter<T>(p: T -> bool, r: T -> bool, s: seq<T>)
    requires forall x :: x in s ==> p(x) == r(x)
    ensures Filter(p, s) == Filter(r, s)
  {
    if |s| > 0 {
      SameFilter(p, r, s[..|s| - 1]);
    }
  }

  /** The bucket of the records that pass a filter counts those of that kind. */
  lemma BucketCounts(kind: Result -> bool, of: Result -> bool, rows: seq<Result>)
    requires forall r :: r in rows ==> kind(r) == of(r)
    ensures Counts(AccuracyBucket(Filter(kind, rows)), of, rows)
  {
    FilterTwice(kind, IsJudged, Judged(of), rows);
    CorrectIsJudged(Filter(kind, rows));
    FilterTwice(kind, IsCorrect, Right(of), rows);
  }

  lemma NestedBucketCounts(kind: Result -> bool, of: Result -> bool, rows: seq<Result>)
    requires forall r :: r in rows ==> of(r) == (r.ok && kind(r))
    ensures Counts(AccuracyBucket(Filter(kind, Filter(IsOk, rows))), of, rows)
  {
    FilterTwice(IsOk, kind, of, rows);
    BucketCounts(of, of, rows);
  }

  lemma TypesOccur(rows: seq<Result>, t: string)
    ensures t in Types(Filter(IsOk, rows)) <==> exists r :: r in rows && r.ok && r.questionType == t
  {
    var ok := Filter(IsOk, rows);
    FilterMembers(IsOk, rows);
    FilterKeeps(IsOk, rows);
    if t in Types(ok) {
      var i :| 0 <= i < |ok| && ok[i].questionType == t;
      assert ok[i] in rows && ok[i].ok;
    }
    if exists r :: r in rows && r.ok && r.questionType == t {
      var r :| r in rows && r.ok && r.questionType == t;
      var i :| 0 <= i < |ok| && ok[i] == r;
    }
  }

  lemma {:induction false} FilterKeeps<T>(p: T -> bool, s: seq<T>)
    ensures forall x :: x in s && p(x) ==> x in Filter(p, s)
  {
    if |s| > 0 {
      FilterKeeps(p, s[..|s| - 1]);
      assert s == s[..|s| - 1] + [s[|s| - 1]];
    }
  }

  lemma AggregatedCounts(rows: seq<Result>)
    ensures Counted(Aggregated(rows), rows)
  {
    var s, ok := Aggregated(rows), Filter(IsOk, rows);
    SameFilter(IsOk, Answered(), rows);
    SameFilter(IsError, Failed(), rows);
    BucketCounts(IsOk, Answered(), rows);
    NestedBucketCounts(IsAbstention, AnsweredAbstention(), rows);
    NestedBucketCounts(IsAnswerable, AnsweredOther(), rows);
    forall t
      ensures t in s.perType <==> exists r :: r in rows && r.ok && r.questionType == t
      ensures t in s.perType ==> Counts(s.perType[t], AnsweredOfType(t), rows)
    {
      TypesOccur(rows, t);
      NestedBucketCounts(OfType(t), AnsweredOfType(t), rows);
    }
  }

  lemma PercentileIs(values: seq<real>, percent: int)
    requires 0 < percent <= 100
    ensures IsPercentile(Percentile(values, percent), values, percent)
  {
    if values != [] {
      PercentileIsNearestRank(values, percent);
    }
  }

  lemma MeanAverages(values: seq<real>)
    ensures Averages(Mean(values), values)
  {
  }

  lemma AggregatedTimings(rows: seq<Result>)
    ensures Timings(Aggregated(rows), rows)
  {
    FilterTwice(IsOk, IsRetrieved, Measured(), rows);
    FilterTwice(IsOk, IsIngested, Timed(), rows);
    FilterTwice(IsOk, UsedVectors, WithVectors(), rows);
    var measured, timed := Filter(Measured(), rows), Filter(Timed(), rows);
    MeanAverages(Map(Chars, measured));
    MeanAverages(Map(Tokens, measured));
    MeanAverages(Map(IngestSeconds, timed));
    PercentileIs(Map(Seconds, measured), 50);
    PercentileIs(Map(Seconds, measured), 95);
  }

  lemma {:induction false} MappedFailures(failed: seq<Result>)
    ensures ListsFailures(Map(Failure, failed), failed)
  {
    forall i | 0 <= i < |failed|
      ensures Map(Failure, failed)[i] == (failed[i].id, failed[i].error)
    {
      assert Map(Failure, failed)[i] == Failure(failed[i]);
    }
  }

  lemma {:induction false} AggregatedFailures(rows: seq<Result>)
    ensures ListsFailures(Map(Failure, Filter(IsError, rows)), Filter(Failed(), rows))
  {
    SameFilter(IsError, Failed(), rows);
    MappedFailures(Filter(IsError, rows));
  }

  method AggregateRecords(rows: seq<Result>) returns (s: Summary)
    ensures s == Aggregated(rows)
    ensures Counted(s, rows) && Timings(s, rows) && ListsFailures(s.failures, Filter(Failed(), rows))
    ensures Partitions(s)
  {
    AggregatedPartitions(rows);
    AggregatedCounts(rows);
    AggregatedTimings(rows);
    AggregatedFailures(rows);
    var ok, errors := Filter(IsOk, rows), Filter(IsError, rows);
    var perType := GroupByType(ok);
    var retrieved, ingested := Filter(IsRetrieved, ok), Filter(IsIngested, ok);
    var overall, seconds := AccuracyBucket(ok), Map(Seconds, retrieved);
    var abstention, nonAbstention := AccuracyBucket(Filter(IsAbstention, ok)), AccuracyBucket(Filter(IsAnswerable, ok));
    s := Summary(|rows|, |ok|, |errors|, overall, abstention, nonAbstention, perType,
                 Mean(Map(Chars, retrieved)), Mean(Map(Tokens, retrieved)),
                 Percentile(seconds, 50), Percentile(seconds, 95), Mean(Map(IngestSeconds, ingested)),
                 Share(|Filter(UsedVectors, ok)|, |ok|), Map(Failure, errors));
  }

  // ---------- order does not matter ----------

  lemma BucketIsOrderFree(a: seq<Result>, b: seq<Result>)
    requires multiset(a) == multiset(b)
    ensures AccuracyBucket(a) == AccuracyBucket(b)
  {
    FilterPermutes(IsJudged, a, b);
    FilterPermutes(IsCorrect, Filter(IsJudged, a), Filter(IsJudged, b));
  }

  lemma PerTypeIsOrderFree(a: seq<Result>, b: seq<Result>)
    requires multiset(a) == multiset(b)
    ensures PerType(a) == PerType(b)
  {
    SameTypes(a, b);
    SameTypes(b, a);
    forall t | t in Types(a)
      ensures AccuracyBucket(Filter(OfType(t), a)) == AccuracyBucket(Filter(OfType(t), b))
    {
      FilterPermutes(OfType(t), a, b);
      BucketIsOrderFree(Filter(OfType(t), a), Filter(OfType(t), b));
    }
  }

  lemma SameTypes(a: seq<Result>, b: seq<Result>)
    requires multiset(a) == multiset(b)
    ensures Types(a) <= Types(b)
  {
    forall i | 0 <= i < |a|
      ensures a[i].questionType in Types(b)
    {
      assert a[i] in multiset(b);
      var k :| 0 <= k < |b| && b[k] == a[i];
    }
  }

  lemma MeanIsOrderFree(a: seq<real>, b: seq<real>)
    requires multiset(a) == multiset(b)
    ensures Mean(a) == Mean(b)
  {
    SameLength(a, b);
    SumPermutes(a, b);
  }

  lemma PercentileIsOrderFree(a: seq<real>, b: seq<real>, percent: int)
    requires multiset(a) == multiset(b)
    ensures Percentile(a, percent) == Percentile(b, percent)
  {
    SameLength(a, b);
    SortPermutes(a, AtMostReal);
    SortPermutes(b, AtMostReal);
    SortSorted(a, AtMostReal);
    SortSorted(b, AtMostReal);
    SortedIsUnique(Sort(a, AtMostReal), Sort(b, AtMostReal), AtMostReal);
  }

  lemma TimingIsOrderFree(a: seq<Result>, b: seq<Result>)
    requires multiset(a) == multiset(b)
    ensures Mean(Map(Chars, a)) == Mean(Map(Chars, b)) && Mean(Map(Tokens, a)) == Mean(Map(Tokens, b))
    ensures Mean(Map(IngestSeconds, a)) == Mean(Map(IngestSeconds, b))
    ensures forall percent :: Percentile(Map(Seconds, a), percent) == Percentile(Map(Seconds, b), percent)
  {
    MapPermutes(Chars, a, b);
    MeanIsOrderFree(Map(Chars, a), Map(Chars, b));
    MapPermutes(Tokens, a, b);
    MeanIsOrderFree(Map(Tokens, a), Map(Tokens, b));
    MapPermutes(IngestSeconds, a, b);
    MeanIsOrderFree(Map(IngestSeconds, a), Map(IngestSeconds, b));
    MapPermutes(Seconds, a, b);
    forall percent
      ensures Percentile(Map(Seconds, a), percent) == Percentile(Map(Seconds, b), percent)
    {
      PercentileIsOrderFree(Map(Seconds, a), Map(Seconds, b), percent);
    }
  }

  /** Reports on permuted records differ in nothing but the order of the listed failures. */
  lemma OrderDoesNotShow(a: seq<Result>, b: seq<Result>)
    requires multiset(a) == multiset(b)
    ensures Aggregated(a).(failures := []) == Aggregated(b).(failures := [])
    ensures multiset(Aggregated(a).failures) == multiset(Aggregated(b).failures)
  {
    SameLength(a, b);
    FilterPermutes(IsOk, a, b);
    FilterPermutes(IsError, a, b);
    var ok, ok' := Filter(IsOk, a), Filter(IsOk, b);
    BucketIsOrderFree(ok, ok');
    FilterPermutes(IsAbstention, ok, ok');
    BucketIsOrderFree(Filter(IsAbstention, ok), Filter(IsAbstention, ok'));
    FilterPermutes(IsAnswerable, ok, ok');
    BucketIsOrderFree(Filter(IsAnswerable, ok), Filter(IsAnswerable, ok'));
    PerTypeIsOrderFree(ok, ok');
    FilterPermutes(IsRetrieved, ok, ok');
    TimingIsOrderFree(Filter(IsRetrieved, ok), Filter(IsRetrieved, ok'));
    FilterPermutes(IsIngested, ok, ok');
    TimingIsOrderFree(Filter(IsIngested, ok), Filter(IsIngested, ok'));
    FilterPermutes(UsedVectors, ok, ok');
    MapPermutes(Failure, Filter(IsError, a), Filter(IsError, b));
  }

  /** Whatever crashes and resumed runs of one configuration came before, the report of a run that gets to the
      end has the numbers of one uninterrupted run. */
  lemma CrashesDoNotShowInNumbers(history: seq<Checkpoint.Attempt>, last: Checkpoint.Attempt, ids: seq<string>,
                                  report: seq<Checkpoint.Record>, mode: string, digest: string, questions: seq<string>,
                                  runQuestion: string -> Checkpoint.Record, fields: Checkpoint.Record -> Result)
    requires Ids.Distinct(questions)
    requires Checkpoint.LegalHistory([], history)
    requires Checkpoint.OneConfiguration(history, mode, digest, questions, runQuestion)
    requires Checkpoint.Legal(Checkpoint.After([], history), last)
    requires Checkpoint.SameSetup(last, mode, digest, questions, runQuestion)
    requires Checkpoint.IsReport(Checkpoint.After([], history), last, ids, report)
    ensures var uninterrupted := Aggregated(Map(fields, Checkpoint.Answers(runQuestion, questions)));
            Aggregated(Map(fields, report)).(failures := []) == uninterrupted.(failures := [])
  {
    Checkpoint.CrashesDoNotShow(history, last, ids, report, mode, digest, questions, runQuestion);
    MapPermutes(fields, report, Checkpoint.Answers(runQuestion, questions));
    OrderDoesNotShow(Map(fields, report), Map(fields, Checkpoint.Answers(runQuestion, questions)));
  }
}
