/** Validation of a release report's `retrieval_quality` suite: a report is accepted only if its headline
    numbers follow from the evidence lists of its cases, through case, subset and suite to the targets. */
module SemanticReport {
  import Text
  import opened Values
  import opened Wrappers

  const EVIDENCE_LIMIT := 5
  const RECALL_LIMIT := 10

  /** A candidate count: the validator accepts integers only, no float that happens to be whole. */
  datatype Count = Count(n: int) | NotAnInteger

  datatype Case =
    | NotAnObject
    | Case(key: string, status: Value, subset: Value,
           recall1: Value, recall5: Value, reciprocalRank: Value, latency: Value,
           query: Value, expectedKey: Value, topKeys: Value, vectorStage: Value, candidateCount: Count)

  /** The canonical case at one position, as the generators define it. */
  datatype Canonical = Canonical(key: string, subset: string, query: string, expectedKey: string)

  datatype Subset = Subset(queryCount: Value, recall1: Value, recall5: Value, mrr: Value)

  datatype Suite = Suite(queryCount: Value, recall1: Value, recall5: Value, mrr: Value,
                         lexical: Subset, paraphrase: Subset, vectorCandidates: Value, cases: seq<Case>)

  /** One complaint of the validator, named after what it complains about. */
  datatype Issue =
    | NotAList | EmptyList | TooManyItems | BadItem | DuplicateItem
    | NotUnit | NotBinary | BadObject | BadSubset | BadLatency | BadQuery | BadExpectedKey | BadStage | BadCount
    | BadStatus | Recall5Mismatch | Recall1Mismatch | RankMismatch | OffWindowRank | StatusMismatch
    | NotDerived | BelowMinimum | BadIdentities | BadQueryCount | BadTotal

  const LEXICAL := "lexical_overlap"
  const PARAPHRASE := "paraphrase"
  const LEXICAL_RECALL_MINIMUM := 0.80
  const LEXICAL_MRR_MINIMUM := 0.60
  const PARAPHRASE_RECALL_MINIMUM := 0.70

  // ---------- value predicates ----------

  predicate InUnit(v: Value) {
    v.Num? && 0.0 <= v.r <= 1.0
  }

  predicate NonemptyString(v: Value) {
    v.Str? && v.s != "" && Text.Strip(v.s) == v.s
  }

  predicate DistinctValues(items: seq<Value>) {
    forall i, j :: 0 <= i < j < |items| ==> items[i] != items[j]
  }

  /** A nonempty list of at most five distinct nonempty strings. */
  predicate KeyList(v: Value) {
    && v.List? && 0 < |v.items| <= EVIDENCE_LIMIT
    && (forall i :: 0 <= i < |v.items| ==> NonemptyString(v.items[i]))
    && DistinctValues(v.items)
  }

  /** 1-based position of the key in the evidence list, 0 when absent. */
  function Rank(topKeys: Value, key: string): (n: nat)
    ensures n == 0 <==> !(topKeys.List? && Str(key) in topKeys.items)
    ensures n > 0 ==> n <= |topKeys.items| && topKeys.items[n - 1] == Str(key)
    ensures n > 0 ==> forall i :: 0 <= i < n - 1 ==> topKeys.items[i] != Str(key)
  {
    if topKeys.List? then RankIn(topKeys.items, key) else 0
  }

  function RankIn(items: seq<Value>, key: string): (n: nat)
    ensures n == 0 <==> Str(key) !in items
    ensures n > 0 ==> n <= |items| && items[n - 1] == Str(key)
    ensures n > 0 ==> forall i :: 0 <= i < n - 1 ==> items[i] != Str(key)
  {
    if |items| == 0 then 0
    else if items[0] == Str(key) then 1
    else
      var n := RankIn(items[1..], key);
      assert forall i :: 1 <= i < |items| ==> items[i] == items[1..][i - 1];
      if n == 0 then 0 else n + 1
  }

  predicate ReciprocalOf(r: real, rank: int) {
    rank > 0 && r == 1.0 / rank as real
  }

  /** The reciprocal ranks a target outside the displayed evidence may have. */
  predicate OffWindow(r: real) {
    r == 0.0 || exists rank :: EVIDENCE_LIMIT < rank <= RECALL_LIMIT && ReciprocalOf(r, rank)
  }

  function Max(a: real, b: real): real {
    if a < b then b else a
  }

  function Abs(a: real): real {
    if a < 0.0 then -a else a
  }

  /** `math.isclose(a, b, abs_tol=1e-12)` with its default relative tolerance of 1e-9. */
  predicate IsClose(a: real, b: real) {
    Abs(a - b) <= Max(0.000000001 * Max(Abs(a), Abs(b)), 0.000000000001)
  }

  // ---------- one case ----------

  predicate EvidenceAccepted(c: Case, canon: Canonical)
    requires c.Case?
  {
    && c.subset == Str(canon.subset)
    && c.query == Str(canon.query) && NonemptyString(c.query)
    && c.expectedKey == Str(canon.expectedKey)
    && KeyList(c.topKeys)
    && c.latency.Num? && c.latency.r >= 0.0
    && c.vectorStage == Str("enabled")
    && c.candidateCount.Count? && c.candidateCount.n >= 1
  }

  /** The metrics and the status are those of a target displayed at this rank (0: not displayed). */
  predicate MetricsFollow(c: Case, rank: nat)
    requires c.Case?
  {
    && c.recall5 == Num(if rank > 0 then 1.0 else 0.0)
    && c.recall1 == Num(if rank == 1 then 1.0 else 0.0)
    && InUnit(c.reciprocalRank)
    && (if rank > 0 then c.reciprocalRank.r == 1.0 / rank as real else OffWindow(c.reciprocalRank.r))
    && c.status == Str(if rank > 0 then "pass" else "fail")
  }

  /** What an accepted case says: its binary metrics and its status are those of its own evidence list. */
  predicate CaseAccepted(c: Case, canon: Canonical) {
    c.Case? && EvidenceAccepted(c, canon) && MetricsFollow(c, Rank(c.topKeys, canon.expectedKey))
  }

  // ---------- honest reports ----------

  /** Distinct nonempty keys, best first, at most ten of them. */
  predicate IsRanking(keys: seq<string>) {
    && 0 < |keys| <= 10
    && (forall i :: 0 <= i < |keys| ==> keys[i] != "" && Text.Strip(keys[i]) == keys[i])
    && forall i, j :: 0 <= i < j < |keys| ==> keys[i] != keys[j]
  }

  /** The key is at this position of the ranking, counted from 1; 0 if it is not in it. */
  predicate StandsAt(keys: seq<string>, key: string, rank: nat) {
    if rank == 0 then key !in keys else rank <= |keys| && keys[rank - 1] == key
  }

  function Strings(keys: seq<string>): (r: seq<Value>)
    ensures |r| == |keys|
  {
    seq(|keys|, i requires 0 <= i < |keys| => Str(keys[i]))
  }

  /** The case reports a ranking as it is: its first five keys, and the metrics of the expected key's position. */
  predicate Reports(c: Case, canon: Canonical, keys: seq<string>, rank: nat) {
    && IsRanking(keys) && StandsAt(keys, canon.expectedKey, rank)
    && c.Case?
    && c.subset == Str(canon.subset) && c.query == Str(canon.query) && c.expectedKey == Str(canon.expectedKey)
    && c.topKeys == List(Strings(if |keys| <= 5 then keys else keys[..5]))
    && c.recall1 == Num(if rank == 1 then 1.0 else 0.0)
    && c.recall5 == Num(if 1 <= rank <= 5 then 1.0 else 0.0)
    && c.reciprocalRank == Num(if rank == 0 then 0.0 else 1.0 / rank as real)
    && c.status == Str(if 1 <= rank <= 5 then "pass" else "fail")
    && c.latency.Num? && c.latency.r >= 0.0
    && c.vectorStage == Str("enabled") && c.candidateCount.Count? && c.candidateCount.n >= 1
  }

  ghost predicate HonestCase(c: Case, canon: Canonical) {
    && canon.query != "" && Text.Strip(canon.query) == canon.query
    && exists keys, rank :: Reports(c, canon, keys, rank)
  }

  lemma ShownKeys(keys: seq<string>)
    requires IsRanking(keys)
    ensures KeyList(List(Strings(if |keys| <= 5 then keys else keys[..5])))
  {
    var shown := Strings(if |keys| <= 5 then keys else keys[..5]);
    assert forall i :: 0 <= i < |shown| ==> shown[i] == Str(keys[i]);
  }

  lemma ShownRank(keys: seq<string>, key: string, rank: nat)
    requires IsRanking(keys) && StandsAt(keys, key, rank)
    ensures Rank(List(Strings(if |keys| <= 5 then keys else keys[..5])), key) == if 1 <= rank <= 5 then rank else 0
  {
    var shown := Strings(if |keys| <= 5 then keys else keys[..5]);
    if 1 <= rank <= 5 {
      assert shown[rank - 1] == Str(key);
      var found := Rank(List(shown), key);
      assert shown[found - 1] == Str(keys[found - 1]);
      assert keys[found - 1] == keys[rank - 1];
    } else {
      forall i | 0 <= i < |shown|
        ensures shown[i] != Str(key)
      {
        assert shown[i] == Str(keys[i]) && keys[i] in keys;
      }
    }
  }

  lemma HonestMetrics(c: Case, canon: Canonical, keys: seq<string>, rank: nat)
    requires Reports(c, canon, keys, rank)
    ensures MetricsFollow(c, if 1 <= rank <= 5 then rank else 0)
  {
    if rank > 5 {
      assert ReciprocalOf(c.reciprocalRank.r, rank);
    }
    if rank > 0 {
      assert 0.0 <= 1.0 / rank as real <= 1.0;
    }
  }

  /** A case that reports what was retrieved is accepted, wherever among the ten the expected key stands. */
  lemma HonestCaseIsAccepted(c: Case, canon: Canonical)
    requires HonestCase(c, canon)
    ensures CaseAccepted(c, canon)
  {
    var keys, rank :| Reports(c, canon, keys, rank);
    ShownKeys(keys);
    ShownRank(keys, canon.expectedKey, rank);
    HonestMetrics(c, canon, keys, rank);
  }

  method StringListIssues(v: Value, allowEmpty: bool, maximum: nat) returns (issues: seq<Issue>)
    ensures issues == [] <==>
            && v.List? && (allowEmpty || |v.items| > 0) && |v.items| <= maximum
            && (forall i :: 0 <= i < |v.items| ==> NonemptyString(v.items[i]))
            && DistinctValues(v.items)
  {
    if !v.List? {
      return [NotAList];
    }
    if !allowEmpty && |v.items| == 0 {
      return [EmptyList];
    }
    if |v.items| > maximum {
      return [TooManyItems];
    }
    if exists i :: 0 <= i < |v.items| && !NonemptyString(v.items[i]) {
      return [BadItem];
    }
    if !DistinctValues(v.items) {
      return [DuplicateItem];
    }
    return [];
  }

  method BinaryIssues(v: Value) returns (issues: seq<Issue>)
    ensures issues == [] <==> v == Num(0.0) || v == Num(1.0)
  {
    issues := [];
    if !InUnit(v) {
      issues := issues + [NotUnit];
    }
    if v != Num(0.0) && v != Num(1.0) {
      issues := issues + [NotBinary];
    }
  }

  method CaseContractIssues(c: Case, canon: Canonical) returns (issues: seq<Issue>)
    ensures issues == [] <==> CaseAccepted(c, canon)
    ensures HonestCase(c, canon) ==> issues == []
  {
    assert HonestCase(c, canon) ==> CaseAccepted(c, canon) by {
      if HonestCase(c, canon) {
        HonestCaseIsAccepted(c, canon);
      }
    }
    if c.NotAnObject? {
      return [BadObject];
    }
    issues := EvidenceIssues(c, canon);
    var metricIssues := RankIssues(c, Rank(c.topKeys, canon.expectedKey));
    issues := issues + metricIssues;
  }

  method EvidenceIssues(c: Case, canon: Canonical) returns (issues: seq<Issue>)
    requires c.Case?
    ensures issues == [] <==> EvidenceAccepted(c, canon)
  {
    issues := StringListIssues(c.topKeys, false, EVIDENCE_LIMIT);
    if c.subset != Str(canon.subset) {
      issues := issues + [BadSubset];
    }
    if !c.latency.Num? || c.latency.r < 0.0 {
      issues := issues + [BadLatency];
    }
    if c.query != Str(canon.query) || !NonemptyString(c.query) {
      issues := issues + [BadQuery];
    }
    if c.expectedKey != Str(canon.expectedKey) {
      issues := issues + [BadExpectedKey];
    }
    if c.vectorStage != Str("enabled") {
      issues := issues + [BadStage];
    }
    if !c.candidateCount.Count? || c.candidateCount.n < 1 {
      issues := issues + [BadCount];
    }
  }

  method RankIssues(c: Case, rank: nat) returns (issues: seq<Issue>)
    requires c.Case?
    ensures issues == [] <==> MetricsFollow(c, rank)
  {
    var five := BinaryIssues(c.recall5);
    var one := BinaryIssues(c.recall1);
    issues := five + one;
    if c.status != Str("pass") && c.status != Str("fail") {
      issues := issues + [BadStatus];
    }
    if !InUnit(c.reciprocalRank) {
      issues := issues + [NotUnit];
    }
    if c.recall5 != Num(if rank > 0 then 1.0 else 0.0) {
      issues := issues + [Recall5Mismatch];
    }
    if c.recall1 != Num(if rank == 1 then 1.0 else 0.0) {
      issues := issues + [Recall1Mismatch];
    }
    if rank > 0 {
      if c.reciprocalRank != Num(1.0 / rank as real) {
        issues := issues + [RankMismatch];
      }
    } else if c.reciprocalRank.Num? && !OffWindow(c.reciprocalRank.r) {
      issues := issues + [OffWindowRank];
    }
    if c.status != Str(if rank > 0 then "pass" else "fail") {
      issues := issues + [StatusMismatch];
    }
  }

  // ---------- means ----------

  datatype Metric = Recall1 | Recall5 | Reciprocal

  function MetricOf(c: Case, m: Metric): Value {
    if c.NotAnObject? then Other
    else
      match m
      case Recall1 => c.recall1
      case Recall5 => c.recall5
      case Reciprocal => c.reciprocalRank
  }

  predicate AllNumbers(cases: seq<Case>, m: Metric) {
    forall i :: 0 <= i < |cases| ==> MetricOf(cases[i], m).Num?
  }

  function Sum(cases: seq<Case>, m: Metric): real
    requires AllNumbers(cases, m)
  {
    if |cases| == 0 then 0.0 else Sum(cases[..|cases| - 1], m) + MetricOf(cases[|cases| - 1], m).r
  }

  function Mean(cases: seq<Case>, m: Metric): Option<real> {
    if |cases| > 0 && AllNumbers(cases, m) then Some(Sum(cases, m) / |cases| as real) else None
  }

  method MeanCaseMetric(cases: seq<Case>, m: Metric) returns (mean: Option<real>)
    ensures mean == Mean(cases, m)
  {
    var total := 0.0;
    for i := 0 to |cases|
      invariant AllNumbers(cases[..i], m) && total == Sum(cases[..i], m)
    {
      assert cases[..i + 1][..i] == cases[..i];
      var v := MetricOf(cases[i], m);
      if !v.Num? {
        return None;
      }
      total := total + v.r;
    }
    assert cases[..|cases|] == cases;
    return if |cases| > 0 then Some(total / |cases| as real) else None;
  }

  /** A reported number matches the value its cases derive. */
  predicate Derived(v: Value, expected: Option<real>) {
    v.Num? && expected.Some? && IsClose(v.r, expected.value)
  }

  // ---------- subsets ----------

  function OfSubset(cases: seq<Case>, subset: string): seq<Case> {
    if |cases| == 0 then []
    else
      var n := |cases| - 1;
      OfSubset(cases[..n], subset) + (if cases[n].Case? && cases[n].subset == Str(subset) then [cases[n]] else [])
  }

  predicate NumbersDerived(recall1: Value, recall5: Value, mrr: Value, cases: seq<Case>) {
    && InUnit(recall1) && InUnit(recall5) && InUnit(mrr)
    && Derived(recall1, Mean(cases, Recall1))
    && Derived(recall5, Mean(cases, Recall5))
    && Derived(mrr, Mean(cases, Reciprocal))
  }

  method UnitIssues(v: Value) returns (issues: seq<Issue>)
    ensures issues == [] <==> InUnit(v)
  {
    return if InUnit(v) then [] else [NotUnit];
  }

  method DerivedIssues(v: Value, cases: seq<Case>, m: Metric) returns (issues: seq<Issue>)
    ensures issues == [] <==> Derived(v, Mean(cases, m))
  {
    var mean := MeanCaseMetric(cases, m);
    return if Derived(v, mean) then [] else [NotDerived];
  }

  method NumberIssues(recall1: Value, recall5: Value, mrr: Value, cases: seq<Case>) returns (issues: seq<Issue>)
    ensures issues == [] <==> NumbersDerived(recall1, recall5, mrr, cases)
  {
    var a := UnitIssues(recall1);
    var b := UnitIssues(recall5);
    var c := UnitIssues(mrr);
    var d := DerivedIssues(recall1, cases, Recall1);
    var e := DerivedIssues(recall5, cases, Recall5);
    var f := DerivedIssues(mrr, cases, Reciprocal);
    issues := a + b + c + d + e + f;
  }

  // ---------- the suite ----------

  predicate CountsGiven(cases: seq<Case>) {
    forall i :: 0 <= i < |cases| ==> cases[i].Case? && cases[i].candidateCount.Count?
  }

  function CandidateTotal(cases: seq<Case>): int
    requires CountsGiven(cases)
  {
    if |cases| == 0 then 0 else CandidateTotal(cases[..|cases| - 1]) + cases[|cases| - 1].candidateCount.n
  }

  predicate AtLeast(v: Value, minimum: real) {
    v.Num? && v.r >= minimum
  }

  predicate CaseIdentified(c: Case, canon: Canonical) {
    c.Case? && c.key == canon.key
  }

  predicate Identified(cases: seq<Case>, canon: seq<Canonical>) {
    |cases| == |canon| && forall i :: 0 <= i < |cases| ==> CaseIdentified(cases[i], canon[i])
  }

  predicate CasesAccepted(cases: seq<Case>, canon: seq<Canonical>) {
    && Identified(cases, canon)
    && forall i :: 0 <= i < |cases| ==> CaseAccepted(cases[i], canon[i])
  }

  predicate SubsetAccepted(subset: Subset, count: nat, cases: seq<Case>) {
    subset.queryCount == Num(count as real) && NumbersDerived(subset.recall1, subset.recall5, subset.mrr, cases)
  }

  predicate TargetsMet(s: Suite) {
    && AtLeast(s.lexical.recall5, LEXICAL_RECALL_MINIMUM)
    && AtLeast(s.lexical.mrr, LEXICAL_MRR_MINIMUM)
    && AtLeast(s.paraphrase.recall5, PARAPHRASE_RECALL_MINIMUM)
  }

  predicate TotalAccepted(cases: seq<Case>, reported: Value) {
    CountsGiven(cases) && reported == Num(CandidateTotal(cases) as real)
  }

  predicate SuiteAccepted(s: Suite, canon: seq<Canonical>) {
    && TargetsMet(s)
    && CasesAccepted(s.cases, canon)
    && s.queryCount == Num(|canon| as real)
    && NumbersDerived(s.recall1, s.recall5, s.mrr, s.cases)
    && TotalAccepted(s.cases, s.vectorCandidates)
    && SubsetAccepted(s.lexical, 32, OfSubset(s.cases, LEXICAL))
    && SubsetAccepted(s.paraphrase, 16, OfSubset(s.cases, PARAPHRASE))
  }

  predicate AcceptedUpTo(cases: seq<Case>, canon: seq<Canonical>, n: nat)
    requires n <= |cases|
  {
    n <= |canon| && forall i :: 0 <= i < n ==> CaseAccepted(cases[i], canon[i])
  }

  method TargetIssues(s: Suite) returns (issues: seq<Issue>)
    ensures issues == [] <==> TargetsMet(s)
  {
    issues := [];
    if !AtLeast(s.lexical.recall5, LEXICAL_RECALL_MINIMUM) {
      issues := issues + [BelowMinimum];
    }
    if !AtLeast(s.lexical.mrr, LEXICAL_MRR_MINIMUM) {
      issues := issues + [BelowMinimum];
    }
    if !AtLeast(s.paraphrase.recall5, PARAPHRASE_RECALL_MINIMUM) {
      issues := issues + [BelowMinimum];
    }
  }

  method CaseListIssues(cases: seq<Case>, canon: seq<Canonical>) returns (issues: seq<Issue>)
    ensures issues == [] <==> CasesAccepted(cases, canon)
  {
    var identified := Identified(cases, canon);
    issues := if identified then [] else [BadIdentities];
    for i := 0 to |cases|
      invariant issues == [] <==> identified && AcceptedUpTo(cases, canon, i)
    {
      var expected := if i < |canon| then canon[i] else Canonical("", "", "", "");
      var one := CaseContractIssues(cases[i], expected);
      OneMoreCase(cases, canon, i);
      issues := issues + one;
    }
  }

  lemma OneMoreCase(cases: seq<Case>, canon: seq<Canonical>, i: nat)
    requires i < |cases|
    ensures AcceptedUpTo(cases, canon, i + 1)
       <==> i < |canon| && AcceptedUpTo(cases, canon, i) && CaseAccepted(cases[i], canon[i])
  {
  }

  method TotalIssues(cases: seq<Case>, reported: Value) returns (issues: seq<Issue>)
    ensures issues == [] <==> TotalAccepted(cases, reported)
  {
    var total := 0;
    for i := 0 to |cases|
      invariant CountsGiven(cases[..i]) && total == CandidateTotal(cases[..i])
    {
      assert cases[..i + 1][..i] == cases[..i];
      if !cases[i].Case? || !cases[i].candidateCount.Count? {
        return [BadTotal];
      }
      total := total + cases[i].candidateCount.n;
    }
    assert cases[..|cases|] == cases;
    return if reported == Num(total as real) then [] else [BadTotal];
  }

  method SubsetIssues(subset: Subset, count: nat, cases: seq<Case>) returns (issues: seq<Issue>)
    ensures issues == [] <==> SubsetAccepted(subset, count, cases)
  {
    issues := NumberIssues(subset.recall1, subset.recall5, subset.mrr, cases);
    if subset.queryCount != Num(count as real) {
      issues := issues + [BadQueryCount];
    }
  }

  method SelectSubset(cases: seq<Case>, subset: string) returns (chosen: seq<Case>)
    ensures chosen == OfSubset(cases, subset)
  {
    chosen := [];
    for i := 0 to |cases|
      invariant chosen == OfSubset(cases[..i], subset)
    {
      assert cases[..i + 1][..i] == cases[..i];
      if cases[i].Case? && cases[i].subset == Str(subset) {
        chosen := chosen + [cases[i]];
      }
    }
    assert cases[..|cases|] == cases;
  }

  method SuiteContractIssues(s: Suite, canon: seq<Canonical>) returns (issues: seq<Issue>)
    ensures issues == [] <==> SuiteAccepted(s, canon)
    ensures HonestSuite(s, canon) ==> issues == []
  {
    assert HonestSuite(s, canon) ==> SuiteAccepted(s, canon) by {
      if HonestSuite(s, canon) {
        HonestSuiteIsAccepted(s, canon);
      }
    }
    var targets := TargetIssues(s);
    var caseList := CaseListIssues(s.cases, canon);
    var count := if s.queryCount == Num(|canon| as real) then [] else [BadQueryCount];
    var numbers := NumberIssues(s.recall1, s.recall5, s.mrr, s.cases);
    var total := TotalIssues(s.cases, s.vectorCandidates);
    var lexicalCases := SelectSubset(s.cases, LEXICAL);
    var lexical := SubsetIssues(s.lexical, 32, lexicalCases);
    var paraphraseCases := SelectSubset(s.cases, PARAPHRASE);
    var paraphrase := SubsetIssues(s.paraphrase, 16, paraphraseCases);
    issues := targets + caseList + count + numbers + total + lexical + paraphrase;
  }

  // ---------- what acceptance forces ----------

  /** The evidence itself: the case's own list has its expected key among the first `top`. */
  predicate Hit(c: Case, canon: Canonical, top: nat) {
    && c.Case? && c.topKeys.List?
    && exists i :: 0 <= i < top && i < |c.topKeys.items| && c.topKeys.items[i] == Str(canon.expectedKey)
  }

  function Hits(cases: seq<Case>, canon: seq<Canonical>, top: nat): nat
    requires |cases| == |canon|
  {
    if |cases| == 0 then 0
    else
      var n := |cases| - 1;
      Hits(cases[..n], canon[..n], top) + (if Hit(cases[n], canon[n], top) then 1 else 0)
  }

  /** How far down the list a metric looks. */
  function Top(m: Metric): nat {
    match m
    case Recall1 => 1
    case Recall5 => EVIDENCE_LIMIT
    case Reciprocal => RECALL_LIMIT
  }

  lemma PrefixAccepted(cases: seq<Case>, canon: seq<Canonical>, n: nat)
    requires CasesAccepted(cases, canon) && n <= |cases|
    ensures CasesAccepted(cases[..n], canon[..n])
  {
  }

  lemma AcceptedNumbers(cases: seq<Case>, canon: seq<Canonical>, m: Metric)
    requires CasesAccepted(cases, canon)
    ensures AllNumbers(cases, m)
  {
    forall i | 0 <= i < |cases|
      ensures MetricOf(cases[i], m).Num?
    {
      assert CaseAccepted(cases[i], canon[i]);
    }
  }

  lemma RankIsHit(c: Case, canon: Canonical, top: nat)
    requires c.Case? && c.topKeys.List?
    ensures Hit(c, canon, top) <==> 0 < Rank(c.topKeys, canon.expectedKey) <= top
  {
    var rank := Rank(c.topKeys, canon.expectedKey);
    if 0 < rank <= top {
      assert c.topKeys.items[rank - 1] == Str(canon.expectedKey);
    }
  }

  lemma RecallIsHit(c: Case, canon: Canonical, m: Metric)
    requires CaseAccepted(c, canon) && m != Reciprocal
    ensures MetricOf(c, m) == Num(if Hit(c, canon, Top(m)) then 1.0 else 0.0)
  {
    assert KeyList(c.topKeys);
    RankIsHit(c, canon, Top(m));
  }

  /** The sum of a recall metric counts the hits in the evidence lists. */
  lemma {:induction false} RecallCountsHits(cases: seq<Case>, canon: seq<Canonical>, m: Metric)
    requires CasesAccepted(cases, canon) && m != Reciprocal
    ensures AllNumbers(cases, m) && Sum(cases, m) == Hits(cases, canon, Top(m)) as real
  {
    AcceptedNumbers(cases, canon, m);
    if |cases| > 0 {
      var n := |cases| - 1;
      PrefixAccepted(cases, canon, n);
      RecallCountsHits(cases[..n], canon[..n], m);
      RecallIsHit(cases[n], canon[n], m);
    }
  }

  /** The reciprocal-rank bounds that n accepted cases with these recall sums allow. */
  predicate Bounded(r1: real, r5: real, rr: real, n: real) {
    r1 + (r5 - r1) / 5.0 <= rr <= r1 + (r5 - r1) / 2.0 + (n - r5) / 6.0 && 0.0 <= r1 <= r5 <= n
  }

  /** What one case can contribute, given the rank of its target. */
  lemma RankBounds(c: Case, rank: nat)
    requires c.Case? && rank <= EVIDENCE_LIMIT && MetricsFollow(c, rank)
    ensures Bounded(c.recall1.r, c.recall5.r, c.reciprocalRank.r, 1.0)
  {
    if rank > 1 {
      assert rank == 2 || rank == 3 || rank == 4 || rank == 5;
    } else if rank == 0 && c.reciprocalRank.r != 0.0 {
      var off :| EVIDENCE_LIMIT < off <= RECALL_LIMIT && ReciprocalOf(c.reciprocalRank.r, off);
      assert off == 6 || off == 7 || off == 8 || off == 9 || off == 10;
    }
  }

  lemma CaseBounds(c: Case, canon: Canonical)
    requires CaseAccepted(c, canon)
    ensures Bounded(c.recall1.r, c.recall5.r, c.reciprocalRank.r, 1.0)
  {
    assert KeyList(c.topKeys);
    RankBounds(c, Rank(c.topKeys, canon.expectedKey));
  }

  lemma BoundedAdds(r1: real, r5: real, rr: real, n: real, s1: real, s5: real, sr: real)
    requires Bounded(r1, r5, rr, n) && Bounded(s1, s5, sr, 1.0)
    ensures Bounded(r1 + s1, r5 + s5, rr + sr, n + 1.0)
  {
  }

  lemma SumStep(cases: seq<Case>, n: nat, m: Metric, v: real)
    requires n < |cases| && AllNumbers(cases, m) && MetricOf(cases[n], m) == Num(v)
    ensures AllNumbers(cases[..n], m) && Sum(cases[..n + 1], m) == Sum(cases[..n], m) + v
  {
    assert cases[..n + 1][..n] == cases[..n];
  }

  lemma {:induction false} SumBounds(cases: seq<Case>, canon: seq<Canonical>, n: nat)
    requires CasesAccepted(cases, canon) && n <= |cases|
    requires AllNumbers(cases, Recall1) && AllNumbers(cases, Recall5) && AllNumbers(cases, Reciprocal)
    ensures Bounded(Sum(cases[..n], Recall1), Sum(cases[..n], Recall5), Sum(cases[..n], Reciprocal), n as real)
  {
    if n > 0 {
      var i := n - 1;
      SumBounds(cases, canon, i);
      var c := cases[i];
      CaseBounds(c, canon[i]);
      SumStep(cases, i, Recall1, c.recall1.r);
      SumStep(cases, i, Recall5, c.recall5.r);
      SumStep(cases, i, Reciprocal, c.reciprocalRank.r);
      BoundedAdds(Sum(cases[..i], Recall1), Sum(cases[..i], Recall5), Sum(cases[..i], Reciprocal), i as real,
                  c.recall1.r, c.recall5.r, c.reciprocalRank.r);
    }
  }

  lemma DivideBounds(r1: real, r5: real, rr: real, n: real)
    requires n > 0.0 && Bounded(r1, r5, rr, n)
    ensures Bounded(r1 / n, r5 / n, rr / n, 1.0)
  {
    var a, b, c := r1 / n, r5 / n, rr / n;
    assert a * n == r1 && b * n == r5 && c * n == rr;
    var low, high := a + (b - a) / 5.0, a + (b - a) / 2.0 + (1.0 - b) / 6.0;
    assert low * n == r1 + (r5 - r1) / 5.0 by {
      Spread(a, b, n, 0.8, 0.2, 0.0);
    }
    assert high * n == r1 + (r5 - r1) / 2.0 + (n - r5) / 6.0 by {
      Spread(a, b, n, 0.5, 1.0 / 3.0, 1.0 / 6.0);
    }
    ScaleDown(low, c, n, r1 + (r5 - r1) / 5.0, rr);
    ScaleDown(c, high, n, rr, r1 + (r5 - r1) / 2.0 + (n - r5) / 6.0);
    ScaleDown(0.0, a, n, 0.0, r1);
    ScaleDown(a, b, n, r1, r5);
    ScaleDown(b, 1.0, n, r5, n);
  }

  lemma ScaleDown(x: real, y: real, n: real, xn: real, yn: real)
    requires n > 0.0 && x * n == xn && y * n == yn && xn <= yn
    ensures x <= y
  {
  }

  lemma Spread(a: real, b: real, n: real, p: real, q: real, k: real)
    ensures (p * a + q * b + k) * n == p * (a * n) + q * (b * n) + k * n
  {
    assert (p * a + q * b + k) * n == (p * a) * n + (q * b) * n + k * n;
  }

  /** The means derived from accepted cases: the reciprocal rank lies between the two extremes its recalls
      allow, hits beyond the first place counting between 1/5 and 1/2 and misses at most 1/6. */
  lemma MeansAreBounded(cases: seq<Case>, canon: seq<Canonical>)
    requires CasesAccepted(cases, canon) && |cases| > 0
    ensures Mean(cases, Recall1).Some? && Mean(cases, Recall5).Some? && Mean(cases, Reciprocal).Some?
    ensures Bounded(Mean(cases, Recall1).value, Mean(cases, Recall5).value, Mean(cases, Reciprocal).value, 1.0)
  {
    AcceptedNumbers(cases, canon, Recall1);
    AcceptedNumbers(cases, canon, Recall5);
    AcceptedNumbers(cases, canon, Reciprocal);
    SumBounds(cases, canon, |cases|);
    assert cases[..|cases|] == cases;
    DivideBounds(Sum(cases, Recall1), Sum(cases, Recall5), Sum(cases, Reciprocal), |cases| as real);
  }

  /** On numbers of the unit interval the tolerance is at most 1e-9. */
  lemma CloseInUnit(a: real, b: real)
    requires 0.0 <= a <= 1.0 && 0.0 <= b <= 1.0 && IsClose(a, b)
    ensures Abs(a - b) <= 0.000000001
  {
  }

  /** What the tolerance of the three reported numbers adds up to in the bounds below. */
  const SLACK := 0.000000002

  predicate MrrBetween(r1: real, r5: real, mrr: real) {
    r1 + (r5 - r1) / 5.0 - SLACK <= mrr <= r1 + (r5 - r1) / 2.0 + (1.0 - r5) / 6.0 + SLACK
  }

  /** Reported numbers derived from accepted cases obey the same bounds, up to the tolerance. */
  lemma DerivedMrrIsBounded(recall1: Value, recall5: Value, mrr: Value, cases: seq<Case>, canon: seq<Canonical>)
    requires CasesAccepted(cases, canon) && |cases| > 0 && NumbersDerived(recall1, recall5, mrr, cases)
    ensures MrrBetween(recall1.r, recall5.r, mrr.r)
  {
    MeansAreBounded(cases, canon);
    CloseInUnit(recall1.r, Mean(cases, Recall1).value);
    CloseInUnit(recall5.r, Mean(cases, Recall5).value);
    CloseInUnit(mrr.r, Mean(cases, Reciprocal).value);
  }

  /** The headline numbers of an accepted suite, and those of both its subsets, obey them. */
  lemma ReportedMrrIsBounded(s: Suite, canon: seq<Canonical>)
    requires SuiteAccepted(s, canon) && CanonicalLayout(canon)
    ensures MrrBetween(s.recall1.r, s.recall5.r, s.mrr.r)
    ensures MrrBetween(s.lexical.recall1.r, s.lexical.recall5.r, s.lexical.mrr.r)
    ensures MrrBetween(s.paraphrase.recall1.r, s.paraphrase.recall5.r, s.paraphrase.mrr.r)
  {
    SubsetsAreHalves(s.cases, canon);
    HalfAccepted(s.cases, canon);
    DerivedMrrIsBounded(s.recall1, s.recall5, s.mrr, s.cases, canon);
    DerivedMrrIsBounded(s.lexical.recall1, s.lexical.recall5, s.lexical.mrr, s.cases[..32], canon[..32]);
    DerivedMrrIsBounded(s.paraphrase.recall1, s.paraphrase.recall5, s.paraphrase.mrr, s.cases[32..], canon[32..]);
  }

  // ---------- the two subsets ----------

  /** The generators' list: 32 lexical cases, then 16 paraphrases. */
  predicate CanonicalLayout(canon: seq<Canonical>) {
    && |canon| == 48
    && forall i :: 0 <= i < 48 ==> canon[i].subset == if i < 32 then LEXICAL else PARAPHRASE
  }

  lemma {:induction false} SubsetOfUniform(cases: seq<Case>, own: string, asked: string)
    requires forall i :: 0 <= i < |cases| ==> cases[i].Case? && cases[i].subset == Str(own)
    ensures OfSubset(cases, asked) == if own == asked then cases else []
  {
    if |cases| > 0 {
      var n := |cases| - 1;
      SubsetOfUniform(cases[..n], own, asked);
      assert cases == cases[..n] + [cases[n]];
      assert cases[n].Case? && (cases[n].subset == Str(asked) <==> own == asked);
    }
  }

  lemma {:induction false} SubsetConcat(a: seq<Case>, b: seq<Case>, asked: string)
    ensures OfSubset(a + b, asked) == OfSubset(a, asked) + OfSubset(b, asked)
  {
    if |b| == 0 {
      assert a + b == a;
    } else {
      var n := |b| - 1;
      assert (a + b)[..|a + b| - 1] == a + b[..n];
      SubsetConcat(a, b[..n], asked);
    }
  }

  lemma SubsetsAreHalves(cases: seq<Case>, canon: seq<Canonical>)
    requires CasesAccepted(cases, canon) && CanonicalLayout(canon)
    ensures OfSubset(cases, LEXICAL) == cases[..32]
    ensures OfSubset(cases, PARAPHRASE) == cases[32..]
  {
    var lexical, paraphrase := cases[..32], cases[32..];
    forall i | 0 <= i < |cases|
      ensures cases[i].Case? && cases[i].subset == Str(if i < 32 then LEXICAL else PARAPHRASE)
    {
      assert CaseAccepted(cases[i], canon[i]);
    }
    assert cases == lexical + paraphrase;
    DifferentNames();
    OnlyHalf(lexical, paraphrase, LEXICAL, PARAPHRASE);
  }

  lemma OnlyHalf(a: seq<Case>, b: seq<Case>, first: string, second: string)
    requires forall i :: 0 <= i < |a| ==> a[i].Case? && a[i].subset == Str(first)
    requires forall i :: 0 <= i < |b| ==> b[i].Case? && b[i].subset == Str(second)
    requires first != second
    ensures OfSubset(a + b, first) == a && OfSubset(a + b, second) == b
  {
    SubsetConcat(a, b, first);
    SubsetConcat(a, b, second);
    SubsetOfUniform(a, first, first);
    SubsetOfUniform(a, first, second);
    SubsetOfUniform(b, second, first);
    SubsetOfUniform(b, second, second);
  }

  lemma DifferentNames()
    ensures LEXICAL != PARAPHRASE
  {
    assert |LEXICAL| == 15 && |PARAPHRASE| == 10;
  }

  lemma EnoughHits(hits: nat, n: nat, reported: real, minimum: real, least: nat)
    requires n > 0
    requires Near(Num(reported), hits, n) && reported >= minimum
    requires least > 0 && (least - 1) as real < (minimum - 0.000000001) * n as real
    ensures hits >= least
  {
    var mean := hits as real / n as real;
    var size := n as real;
    assert mean * size == hits as real;
    var floor := minimum - 0.000000001;
    assert floor <= mean;
    if hits < least {
      assert hits as real <= (least - 1) as real;
      ScaleDown(mean, floor, size, hits as real, floor * size);
    }
  }

  predicate Near(v: Value, hits: nat, n: nat)
    requires n > 0
  {
    v.Num? && Abs(v.r - hits as real / n as real) <= 0.000000001
  }

  /** Both reported recalls are the fractions of evidence lists that have their expected key in first place and
      anywhere, within 1e-9. */
  predicate RecallsFollow(recall1: Value, recall5: Value, cases: seq<Case>, canon: seq<Canonical>)
    requires 0 < |cases| == |canon|
  {
    && Near(recall1, Hits(cases, canon, 1), |cases|)
    && Near(recall5, Hits(cases, canon, EVIDENCE_LIMIT), |cases|)
  }

  lemma RecallIsNear(cases: seq<Case>, canon: seq<Canonical>, m: Metric, reported: Value)
    requires CasesAccepted(cases, canon) && |cases| > 0 && m != Reciprocal
    requires InUnit(reported) && Derived(reported, Mean(cases, m))
    ensures Near(reported, Hits(cases, canon, Top(m)), |cases|)
  {
    MeansAreBounded(cases, canon);
    RecallCountsHits(cases, canon, m);
    CloseInUnit(reported.r, Mean(cases, m).value);
  }

  lemma DerivedRecallsFollow(recall1: Value, recall5: Value, mrr: Value, cases: seq<Case>, canon: seq<Canonical>)
    requires CasesAccepted(cases, canon) && |cases| > 0 && NumbersDerived(recall1, recall5, mrr, cases)
    ensures RecallsFollow(recall1, recall5, cases, canon)
  {
    RecallIsNear(cases, canon, Recall1, recall1);
    RecallIsNear(cases, canon, Recall5, recall5);
  }

  /** All reported recalls, of the suite and of both subsets, follow from the evidence lists. */
  lemma HeadlinesFollowEvidence(s: Suite, canon: seq<Canonical>)
    requires SuiteAccepted(s, canon) && CanonicalLayout(canon)
    ensures RecallsFollow(s.recall1, s.recall5, s.cases, canon)
    ensures RecallsFollow(s.lexical.recall1, s.lexical.recall5, s.cases[..32], canon[..32])
    ensures RecallsFollow(s.paraphrase.recall1, s.paraphrase.recall5, s.cases[32..], canon[32..])
  {
    SubsetsAreHalves(s.cases, canon);
    HalfAccepted(s.cases, canon);
    DerivedRecallsFollow(s.recall1, s.recall5, s.mrr, s.cases, canon);
    DerivedRecallsFollow(s.lexical.recall1, s.lexical.recall5, s.lexical.mrr, s.cases[..32], canon[..32]);
    DerivedRecallsFollow(s.paraphrase.recall1, s.paraphrase.recall5, s.paraphrase.mrr, s.cases[32..], canon[32..]);
  }

  /** Every accepted report has at least 26 of its 32 lexical and 12 of its 16 paraphrase cases whose own
      evidence list contains the expected key: the targets cannot be met by reported numbers alone. */
  lemma AcceptanceNeedsHits(s: Suite, canon: seq<Canonical>)
    requires SuiteAccepted(s, canon) && CanonicalLayout(canon)
    ensures Hits(s.cases[..32], canon[..32], EVIDENCE_LIMIT) >= 26
    ensures Hits(s.cases[32..], canon[32..], EVIDENCE_LIMIT) >= 12
  {
    HeadlinesFollowEvidence(s, canon);
    assert CasesAccepted(s.cases, canon) && |canon| == 48 && TargetsMet(s);
    var lexical := Hits(s.cases[..32], canon[..32], EVIDENCE_LIMIT);
    var paraphrase := Hits(s.cases[32..], canon[32..], EVIDENCE_LIMIT);
    EnoughHits(lexical, 32, s.lexical.recall5.r, LEXICAL_RECALL_MINIMUM, 26);
    EnoughHits(paraphrase, 16, s.paraphrase.recall5.r, PARAPHRASE_RECALL_MINIMUM, 12);
  }

  lemma HalfAccepted(cases: seq<Case>, canon: seq<Canonical>)
    requires CasesAccepted(cases, canon) && |canon| == 48
    ensures CasesAccepted(cases[..32], canon[..32])
    ensures CasesAccepted(cases[32..], canon[32..])
  {
  }

  // ---------- what an accepted case can claim ----------

  /** A target outside a list of fewer than five keys that claims a rank: no ranking gives that, because a sixth place
      needs five keys before it. */
  predicate ShortOffWindow(c: Case) {
    && c.Case? && c.topKeys.List? && |c.topKeys.items| < 5
    && c.recall5 == Num(0.0) && c.reciprocalRank.Num? && c.reciprocalRank.r != 0.0
  }

  /** A key that stands for itself: not blank, no blanks around it. */
  predicate PlainKey(key: string) {
    key != "" && Text.Strip(key) == key
  }

  function Keys(v: Value): seq<string> {
    if v.List? then seq(|v.items|, i requires 0 <= i < |v.items| => if v.items[i].Str? then v.items[i].s else "") else []
  }

  lemma KeysOfList(v: Value)
    requires KeyList(v)
    ensures IsRanking(Keys(v)) && v == List(Strings(Keys(v)))
  {
    assert v.items == Strings(Keys(v));
  }

  lemma KeysHoldTarget(v: Value, key: string)
    requires KeyList(v)
    ensures StandsAt(Keys(v), key, Rank(v, key))
  {
    forall i | 0 <= i < |Keys(v)|
      ensures Keys(v)[i] == key ==> Str(key) in v.items
    {
      assert v.items[i] == Str(Keys(v)[i]);
    }
  }

  function Filler(n: nat): (r: string)
    ensures |r| == n + 1
  {
    seq(n + 1, _ => 'x')
  }

  lemma FillerIsPlain(n: nat)
    ensures PlainKey(Filler(n))
  {
    var s := Filler(n);
    assert !Text.IsSpace(s[0]) && !Text.IsSpace(s[|s| - 1]);
    assert Text.StripLeft(s) == s && Text.StripRight(s) == s;
  }

  function Longest(keys: seq<string>): (n: nat)
    ensures forall i :: 0 <= i < |keys| ==> |keys[i]| <= n
  {
    if |keys| == 0 then 0
    else
      var n := Longest(keys[..|keys| - 1]);
      if n < |keys[|keys| - 1]| then |keys[|keys| - 1]| else n
  }

  /** The keys, made longer by distinct new ones. */
  lemma {:induction false} FillUp(keys: seq<string>, target: string, size: nat) returns (r: seq<string>)
    requires IsRanking(keys) && |keys| <= size <= 10 && target !in keys
    ensures IsRanking(r) && |r| == size && r[..|keys|] == keys && target !in r
    decreases size - |keys|
  {
    if |keys| == size {
      r := keys;
    } else {
      var new_ := Filler(Longest(keys) + |target|);
      FillerIsPlain(Longest(keys) + |target|);
      assert new_ !in keys && new_ != target;
      r := FillUp(keys + [new_], target, size);
      assert r[..|keys|] == r[..|keys| + 1][..|keys|] == keys;
    }
  }

  /** A ranking with these first five keys and the target at a later place. */
  lemma RankingWith(keys: seq<string>, target: string, rank: nat) returns (r: seq<string>)
    requires IsRanking(keys) && |keys| == 5 && target !in keys && 5 < rank <= 10 && PlainKey(target)
    ensures IsRanking(r) && |r| == rank && StandsAt(r, target, rank) && r[..5] == keys
  {
    var before := FillUp(keys, target, rank - 1);
    r := before + [target];
    assert r[..5] == before[..5];
  }

  lemma AcceptedIsHonest(c: Case, canon: Canonical)
    requires CaseAccepted(c, canon) && !ShortOffWindow(c)
    requires PlainKey(canon.query) && PlainKey(canon.expectedKey)
    ensures HonestCase(c, canon)
  {
    var keys, rank := Keys(c.topKeys), Rank(c.topKeys, canon.expectedKey);
    KeysOfList(c.topKeys);
    KeysHoldTarget(c.topKeys, canon.expectedKey);
    if rank > 0 || c.reciprocalRank.r == 0.0 {
      assert Reports(c, canon, keys, rank);
    } else {
      var off :| EVIDENCE_LIMIT < off <= RECALL_LIMIT && ReciprocalOf(c.reciprocalRank.r, off);
      var all := RankingWith(keys, canon.expectedKey, off);
      assert Reports(c, canon, all, off);
    }
  }

  lemma HonestIsNotShort(c: Case, canon: Canonical)
    requires HonestCase(c, canon)
    ensures !ShortOffWindow(c)
  {
    var keys, rank :| Reports(c, canon, keys, rank);
    assert c.topKeys.items == Strings(if |keys| <= 5 then keys else keys[..5]);
  }

  /** A case is accepted exactly if it reports some ranking of at most ten keys as it is, or claims an off-window rank
      for a list too short to have one. */
  lemma CaseAcceptedExactly(c: Case, canon: Canonical)
    requires PlainKey(canon.query) && PlainKey(canon.expectedKey)
    ensures HonestCase(c, canon) <==> CaseAccepted(c, canon) && !ShortOffWindow(c)
  {
    if HonestCase(c, canon) {
      HonestCaseIsAccepted(c, canon);
      HonestIsNotShort(c, canon);
    } else if CaseAccepted(c, canon) && !ShortOffWindow(c) {
      AcceptedIsHonest(c, canon);
    }
  }

  /** Such a claim is accepted: one displayed key, another expected, and a reciprocal rank of 1/6. */
  lemma ShortOffWindowIsAccepted(canon: Canonical, shown: string)
    requires PlainKey(canon.query) && PlainKey(shown) && shown != canon.expectedKey
    ensures var c := Case(canon.key, Str("fail"), Str(canon.subset), Num(0.0), Num(0.0), Num(1.0 / 6.0), Num(0.0),
                          Str(canon.query), Str(canon.expectedKey), List([Str(shown)]), Str("enabled"), Count(1));
            CaseAccepted(c, canon) && !HonestCase(c, canon)
  {
    var c := Case(canon.key, Str("fail"), Str(canon.subset), Num(0.0), Num(0.0), Num(1.0 / 6.0), Num(0.0),
                  Str(canon.query), Str(canon.expectedKey), List([Str(shown)]), Str("enabled"), Count(1));
    assert ReciprocalOf(c.reciprocalRank.r, 6);
    assert Rank(c.topKeys, canon.expectedKey) == 0;
    if HonestCase(c, canon) {
      HonestIsNotShort(c, canon);
    }
  }

  // ---------- an honest suite is accepted ----------

  /** A reported number is within 1e-13 of the mean of a metric. */
  predicate NearMean(v: Value, cases: seq<Case>, m: Metric) {
    && InUnit(v) && |cases| > 0 && AllNumbers(cases, m)
    && -0.0000000000001 <= v.r - Sum(cases, m) / |cases| as real <= 0.0000000000001
  }

  predicate NearMeans(recall1: Value, recall5: Value, mrr: Value, cases: seq<Case>) {
    NearMean(recall1, cases, Recall1) && NearMean(recall5, cases, Recall5) && NearMean(mrr, cases, Reciprocal)
  }

  /** Every canonical case reported as it is, the means, counts and totals of these cases, and the three targets met. */
  ghost predicate HonestSuite(s: Suite, canon: seq<Canonical>) {
    && CanonicalLayout(canon) && |s.cases| == 48
    && (forall i :: 0 <= i < 48 ==> s.cases[i].Case? && s.cases[i].key == canon[i].key && HonestCase(s.cases[i], canon[i]))
    && s.queryCount == Num(48.0) && s.lexical.queryCount == Num(32.0) && s.paraphrase.queryCount == Num(16.0)
    && NearMeans(s.recall1, s.recall5, s.mrr, s.cases)
    && NearMeans(s.lexical.recall1, s.lexical.recall5, s.lexical.mrr, s.cases[..32])
    && NearMeans(s.paraphrase.recall1, s.paraphrase.recall5, s.paraphrase.mrr, s.cases[32..])
    && CountsGiven(s.cases) && s.vectorCandidates == Num(CandidateTotal(s.cases) as real)
    && s.lexical.recall5.r >= 0.8 && s.lexical.mrr.r >= 0.6 && s.paraphrase.recall5.r >= 0.7
  }

  lemma NearIsDerived(v: Value, cases: seq<Case>, m: Metric)
    requires NearMean(v, cases, m)
    ensures InUnit(v) && Derived(v, Mean(cases, m))
  {
  }

  lemma NearMeansDerived(recall1: Value, recall5: Value, mrr: Value, cases: seq<Case>)
    requires NearMeans(recall1, recall5, mrr, cases)
    ensures NumbersDerived(recall1, recall5, mrr, cases)
  {
    NearIsDerived(recall1, cases, Recall1);
    NearIsDerived(recall5, cases, Recall5);
    NearIsDerived(mrr, cases, Reciprocal);
  }

  lemma HonestCasesAreAccepted(cases: seq<Case>, canon: seq<Canonical>)
    requires |cases| == |canon|
    requires forall i :: 0 <= i < |cases| ==> cases[i].Case? && cases[i].key == canon[i].key && HonestCase(cases[i], canon[i])
    ensures CasesAccepted(cases, canon)
  {
    forall i | 0 <= i < |cases|
      ensures CaseIdentified(cases[i], canon[i]) && CaseAccepted(cases[i], canon[i])
    {
      HonestCaseIsAccepted(cases[i], canon[i]);
    }
  }

  /** An honest suite is accepted. */
  lemma HonestSuiteIsAccepted(s: Suite, canon: seq<Canonical>)
    requires HonestSuite(s, canon)
    ensures SuiteAccepted(s, canon)
  {
    HonestCasesAreAccepted(s.cases, canon);
    SubsetsAreHalves(s.cases, canon);
    NearMeansDerived(s.recall1, s.recall5, s.mrr, s.cases);
    NearMeansDerived(s.lexical.recall1, s.lexical.recall5, s.lexical.mrr, s.cases[..32]);
    NearMeansDerived(s.paraphrase.recall1, s.paraphrase.recall5, s.paraphrase.mrr, s.cases[32..]);
  }

  /** The case that finds its expected key at once. */
  function PerfectCase(canon: Canonical): Case {
    Case(canon.key, Str("pass"), Str(canon.subset), Num(1.0), Num(1.0), Num(1.0), Num(0.0), Str(canon.query),
         Str(canon.expectedKey), List([Str(canon.expectedKey)]), Str("enabled"), Count(1))
  }

  function PerfectCases(canon: seq<Canonical>): (r: seq<Case>)
    ensures |r| == |canon|
  {
    seq(|canon|, i requires 0 <= i < |canon| => PerfectCase(canon[i]))
  }

  function PerfectSuite(canon: seq<Canonical>): Suite {
    var one := Num(1.0);
    Suite(Num(48.0), one, one, one, Subset(Num(32.0), one, one, one), Subset(Num(16.0), one, one, one), Num(48.0),
          PerfectCases(canon))
  }

  predicate AllPerfect(cases: seq<Case>) {
    forall i :: 0 <= i < |cases| ==>
      && cases[i].Case? && cases[i].candidateCount == Count(1)
      && cases[i].recall1 == cases[i].recall5 == cases[i].reciprocalRank == Num(1.0)
  }

  lemma {:induction false} PerfectSums(cases: seq<Case>, m: Metric)
    requires AllPerfect(cases)
    ensures AllNumbers(cases, m) && Sum(cases, m) == |cases| as real
    ensures CountsGiven(cases) && CandidateTotal(cases) == |cases|
  {
    if |cases| > 0 {
      PerfectSums(cases[..|cases| - 1], m);
    }
  }

  lemma PerfectMeans(cases: seq<Case>)
    requires AllPerfect(cases) && |cases| > 0
    ensures NearMeans(Num(1.0), Num(1.0), Num(1.0), cases)
  {
    PerfectSums(cases, Recall1);
    PerfectSums(cases, Recall5);
    PerfectSums(cases, Reciprocal);
    assert |cases| as real / |cases| as real == 1.0;
  }

  /** Honest suites exist: the one in which every expected key comes first. */
  lemma PerfectSuiteIsHonest(canon: seq<Canonical>)
    requires CanonicalLayout(canon)
    requires forall i :: 0 <= i < 48 ==> PlainKey(canon[i].query) && PlainKey(canon[i].expectedKey)
    ensures HonestSuite(PerfectSuite(canon), canon)
  {
    var cases := PerfectCases(canon);
    forall i | 0 <= i < 48
      ensures cases[i] == PerfectCase(canon[i]) && HonestCase(cases[i], canon[i])
    {
      PerfectCaseIsHonest(canon[i]);
    }
    PerfectNumbers(cases);
  }

  lemma PerfectNumbers(cases: seq<Case>)
    requires AllPerfect(cases) && |cases| == 48
    ensures CountsGiven(cases) && CandidateTotal(cases) == 48
    ensures var one := Num(1.0);
            && NearMeans(one, one, one, cases) && NearMeans(one, one, one, cases[..32]) && NearMeans(one, one, one, cases[32..])
  {
    PerfectSums(cases, Recall1);
    PerfectMeans(cases);
    PerfectMeans(cases[..32]);
    PerfectMeans(cases[32..]);
  }

  lemma PerfectCaseIsHonest(canon: Canonical)
    requires PlainKey(canon.query) && PlainKey(canon.expectedKey)
    ensures HonestCase(PerfectCase(canon), canon)
  {
    var keys := [canon.expectedKey];
    assert Strings(keys) == [Str(canon.expectedKey)];
    assert Reports(PerfectCase(canon), canon, keys, 1);
  }

  /** Within 1e-9 of the mean of a metric. */
  predicate CloseToMean(v: Value, cases: seq<Case>, m: Metric) {
    && InUnit(v) && |cases| > 0 && AllNumbers(cases, m)
    && -0.000000001 <= v.r - Sum(cases, m) / |cases| as real <= 0.000000001
  }

  predicate CloseToMeans(recall1: Value, recall5: Value, mrr: Value, cases: seq<Case>) {
    CloseToMean(recall1, cases, Recall1) && CloseToMean(recall5, cases, Recall5) && CloseToMean(mrr, cases, Reciprocal)
  }

  lemma DerivedIsClose(v: Value, cases: seq<Case>, m: Metric)
    requires InUnit(v) && Derived(v, Mean(cases, m)) && 0.0 <= Mean(cases, m).value <= 1.0
    ensures CloseToMean(v, cases, m)
  {
    CloseInUnit(v.r, Mean(cases, m).value);
  }

  lemma DerivedAreClose(recall1: Value, recall5: Value, mrr: Value, cases: seq<Case>, canon: seq<Canonical>)
    requires CasesAccepted(cases, canon) && |cases| > 0 && NumbersDerived(recall1, recall5, mrr, cases)
    ensures CloseToMeans(recall1, recall5, mrr, cases)
  {
    MeansAreBounded(cases, canon);
    DerivedIsClose(recall1, cases, Recall1);
    DerivedIsClose(recall5, cases, Recall5);
    DerivedIsClose(mrr, cases, Reciprocal);
  }

  /** What an accepted suite says: the canonical cases in order, the counts of suite and subsets, the total of the
      candidates, numbers within 1e-9 of the means of exactly these cases, and the three targets met. */
  predicate Consistent(s: Suite, canon: seq<Canonical>) {
    && |s.cases| == |canon| == 48
    && (forall i :: 0 <= i < 48 ==> s.cases[i].Case? && s.cases[i].key == canon[i].key)
    && s.queryCount == Num(48.0) && s.lexical.queryCount == Num(32.0) && s.paraphrase.queryCount == Num(16.0)
    && CountsGiven(s.cases) && s.vectorCandidates == Num(CandidateTotal(s.cases) as real)
    && CloseToMeans(s.recall1, s.recall5, s.mrr, s.cases)
    && CloseToMeans(s.lexical.recall1, s.lexical.recall5, s.lexical.mrr, s.cases[..32])
    && CloseToMeans(s.paraphrase.recall1, s.paraphrase.recall5, s.paraphrase.mrr, s.cases[32..])
    && s.lexical.recall5.r >= 0.8 && s.lexical.mrr.r >= 0.6 && s.paraphrase.recall5.r >= 0.7
  }

  lemma AcceptedSuiteIsConsistent(s: Suite, canon: seq<Canonical>)
    requires SuiteAccepted(s, canon) && CanonicalLayout(canon)
    ensures Consistent(s, canon)
    ensures forall i :: 0 <= i < 48 ==> CaseAccepted(s.cases[i], canon[i])
  {
    SubsetsAreHalves(s.cases, canon);
    HalfAccepted(s.cases, canon);
    DerivedAreClose(s.recall1, s.recall5, s.mrr, s.cases, canon);
    DerivedAreClose(s.lexical.recall1, s.lexical.recall5, s.lexical.mrr, s.cases[..32], canon[..32]);
    DerivedAreClose(s.paraphrase.recall1, s.paraphrase.recall5, s.paraphrase.mrr, s.cases[32..], canon[32..]);
    forall i | 0 <= i < 48
      ensures CaseAccepted(s.cases[i], canon[i]) && s.cases[i].Case? && s.cases[i].key == canon[i].key
    {
      assert CaseIdentified(s.cases[i], canon[i]);
    }
  }

  // ---------- what the reciprocal-rank target forces ----------

  lemma {:induction false} HitsAtMost(cases: seq<Case>, canon: seq<Canonical>, top: nat)
    requires |cases| == |canon|
    ensures Hits(cases, canon, top) <= |cases|
  {
    if |cases| > 0 {
      HitsAtMost(cases[..|cases| - 1], canon[..|canon| - 1], top);
    }
  }

  predicate IsMean(mean: real, sum: real, n: nat) {
    mean * n as real == sum
  }

  /** What n lists can add up to in reciprocal ranks, given their hits in first place and anywhere. */
  predicate PlacesAllow(mean: real, first: nat, any: nat, n: nat) {
    6.0 * (mean * n as real) <= (3 * first + 2 * any + n) as real
  }

  lemma BoundedByHits(mean: real, sum: real, first: nat, any: nat, n: nat)
    requires IsMean(mean, sum, n) && Bounded(first as real, any as real, sum, n as real)
    ensures PlacesAllow(mean, first, any, n)
  {
  }

  lemma SumOfReciprocals(cases: seq<Case>, canon: seq<Canonical>)
    requires CasesAccepted(cases, canon)
    ensures AllNumbers(cases, Reciprocal)
    ensures Bounded(Hits(cases, canon, 1) as real, Hits(cases, canon, EVIDENCE_LIMIT) as real,
                    Sum(cases, Reciprocal), |cases| as real)
  {
    AcceptedNumbers(cases, canon, Recall1);
    AcceptedNumbers(cases, canon, Recall5);
    AcceptedNumbers(cases, canon, Reciprocal);
    SumBounds(cases, canon, |cases|);
    assert cases[..|cases|] == cases;
    RecallCountsHits(cases, canon, Recall1);
    RecallCountsHits(cases, canon, Recall5);
  }

  lemma MeanTimesCount(cases: seq<Case>, m: Metric)
    requires |cases| > 0 && AllNumbers(cases, m)
    ensures Mean(cases, m).Some? && IsMean(Mean(cases, m).value, Sum(cases, m), |cases|)
  {
  }

  /** The mean reciprocal rank in terms of hits in first place and anywhere. */
  lemma ReciprocalsNeedHits(cases: seq<Case>, canon: seq<Canonical>)
    requires CasesAccepted(cases, canon) && |cases| > 0
    ensures Mean(cases, Reciprocal).Some?
    ensures PlacesAllow(Mean(cases, Reciprocal).value,
                        Hits(cases, canon, 1), Hits(cases, canon, EVIDENCE_LIMIT), |cases|)
  {
    SumOfReciprocals(cases, canon);
    MeanTimesCount(cases, Reciprocal);
    BoundedByHits(Mean(cases, Reciprocal).value, Sum(cases, Reciprocal),
                  Hits(cases, canon, 1), Hits(cases, canon, EVIDENCE_LIMIT), |cases|);
  }

  lemma MrrNeedsHits(mrr: real, mean: real, first: nat, any: nat)
    requires mrr >= LEXICAL_MRR_MINIMUM && Abs(mrr - mean) <= 0.000000001
    requires PlacesAllow(mean, first, any, 32)
    ensures 3 * first + 2 * any >= 84
  {
    assert mean * 32.0 >= 19.19;
  }

  /** The target of 0.60 for the lexical reciprocal rank cannot be met without expected keys in first place: three
      times those and twice the hits anywhere make at least 84, hence at least 7 of the 32 lists are headed by their
      expected key. */
  lemma AcceptanceNeedsFirstPlaces(s: Suite, canon: seq<Canonical>)
    requires SuiteAccepted(s, canon) && CanonicalLayout(canon)
    ensures var first, any := Hits(s.cases[..32], canon[..32], 1), Hits(s.cases[..32], canon[..32], EVIDENCE_LIMIT);
            3 * first + 2 * any >= 84 && first >= 7
  {
    SubsetsAreHalves(s.cases, canon);
    HalfAccepted(s.cases, canon);
    LexicalNeedsFirstPlaces(s.lexical.mrr, s.cases[..32], canon[..32]);
  }

  lemma LexicalNeedsFirstPlaces(mrr: Value, cases: seq<Case>, canon: seq<Canonical>)
    requires CasesAccepted(cases, canon) && |cases| == 32
    requires InUnit(mrr) && Derived(mrr, Mean(cases, Reciprocal)) && AtLeast(mrr, LEXICAL_MRR_MINIMUM)
    ensures var first, any := Hits(cases, canon, 1), Hits(cases, canon, EVIDENCE_LIMIT);
            3 * first + 2 * any >= 84 && first >= 7
  {
    MeansAreBounded(cases, canon);
    MeanInUnit(cases, canon);
    CloseInUnit(mrr.r, Mean(cases, Reciprocal).value);
    ReciprocalsNeedHits(cases, canon);
    HitsAtMost(cases, canon, EVIDENCE_LIMIT);
    MrrNeedsHits(mrr.r, Mean(cases, Reciprocal).value, Hits(cases, canon, 1), Hits(cases, canon, EVIDENCE_LIMIT));
  }

  lemma MeanInUnit(cases: seq<Case>, canon: seq<Canonical>)
    requires CasesAccepted(cases, canon) && |cases| > 0
    ensures Mean(cases, Reciprocal).Some? && 0.0 <= Mean(cases, Reciprocal).value <= 1.0
  {
    MeansAreBounded(cases, canon);
  }
}
