/** Checkpoint and resume: an append-only log of result rows read last-row-wins, a done-set per mode, a
    fingerprint gate, and runs that may stop after any append and complete questions in any order. */
module Checkpoint {
  import opened Ids
  import opened Lists

  /** One result row; `body` stands for the fields no resume decision reads. */
  datatype Record = Record(id: string, mode: string, digest: string, ok: bool, body: string)

  /** A line of the file: a readable row, or one that does not parse. */
  datatype Line = Row(record: Record) | Corrupt

  type Log = seq<Line>

  datatype Config = Config(mode: string, digest: string, resume: bool)

  // ---------- reading ----------

  function Load(log: Log): map<string, Record> {
    if |log| == 0 then map[]
    else
      var before := Load(log[..|log| - 1]);
      match log[|log| - 1]
      case Row(r) => before[r.id := r]
      case Corrupt => before
  }

  method LoadCheckpoint(log: Log) returns (records: map<string, Record>)
    ensures records == Load(log)
  {
    records := map[];
    for n := 0 to |log|
      invariant records == Load(log[..n])
    {
      assert log[..n + 1][..n] == log[..n];
      match log[n] {
        case Row(r) => records := records[r.id := r];
        case Corrupt =>
      }
    }
    assert log[..|log|] == log;
  }

  /** Line i is the last readable row of the question. */
  ghost predicate LastRow(log: Log, i: nat, id: string) {
    && i < |log| && log[i].Row? && log[i].record.id == id
    && forall j :: i < j < |log| && log[j].Row? ==> log[j].record.id != id
  }

  /** A question's record is its last readable row. */
  lemma {:induction false} LoadIsLastRow(log: Log, i: nat, id: string)
    requires LastRow(log, i, id)
    ensures id in Load(log) && Load(log)[id] == log[i].record
  {
    var n := |log| - 1;
    if i < n {
      assert !(log[n].Row? && log[n].record.id == id);
      assert LastRow(log[..n], i, id);
      LoadIsLastRow(log[..n], i, id);
    }
  }

  /** Only questions with a readable row have a record. */
  lemma {:induction false} LoadedHasRow(log: Log, id: string) returns (i: nat)
    requires id in Load(log)
    ensures LastRow(log, i, id)
  {
    var n := |log| - 1;
    if log[n].Row? && log[n].record.id == id {
      i := n;
    } else {
      i := LoadedHasRow(log[..n], id);
      forall j | i < j < |log| && log[j].Row?
        ensures log[j].record.id != id
      {
        if j < n {
          assert log[..n][j] == log[j];
        }
      }
    }
  }

  function Done(records: map<string, Record>, mode: string): set<string> {
    set id | id in records && records[id].ok && records[id].mode == mode
  }

  function Existing(log: Log, c: Config): map<string, Record> {
    if c.resume then Load(log) else map[]
  }

  function DoneBefore(log: Log, c: Config): set<string> {
    Done(Existing(log, c), c.mode)
  }

  /** Some completed row of this mode was produced under another fingerprint. */
  predicate Refuses(log: Log, c: Config) {
    exists id :: id in DoneBefore(log, c) && Existing(log, c)[id].digest != c.digest
  }

  function Pending(questions: seq<string>, done: set<string>): seq<string> {
    if |questions| == 0 then []
    else
      var n := |questions| - 1;
      Pending(questions[..n], done) + (if questions[n] in done then [] else [questions[n]])
  }

  // ---------- one run ----------

  /** A run: what it was started with, the rows it appended in completion order, whether it got to the end. */
  datatype Attempt = Attempt(config: Config, questions: seq<string>, rows: seq<Record>, finished: bool)

  function RowIds(rows: seq<Record>): (r: seq<string>)
    ensures |r| == |rows|
  {
    seq(|rows|, i requires 0 <= i < |rows| => rows[i].id)
  }

  function Rows(rows: seq<Record>): (r: Log)
    ensures |r| == |rows|
  {
    seq(|rows|, i requires 0 <= i < |rows| => Row(rows[i]))
  }

  /** What a run can do to a log: a refused one appends nothing; any other appends rows of its own mode and
      fingerprint for questions that are pending, each at most once, in any order, and all of them if it
      finishes. */
  ghost predicate Legal(log: Log, a: Attempt) {
    if Refuses(log, a.config) then a.rows == [] && !a.finished
    else
      var pending := multiset(Pending(a.questions, DoneBefore(log, a.config)));
      && (forall i :: 0 <= i < |a.rows| ==> a.rows[i].mode == a.config.mode && a.rows[i].digest == a.config.digest)
      && multiset(RowIds(a.rows)) <= pending
      && (a.finished ==> multiset(RowIds(a.rows)) == pending)
  }

  function Next(log: Log, a: Attempt): Log {
    log + Rows(a.rows)
  }

  /** The rows a finished run reports: the done ones it found, listed by `ids`, then its own. */
  function Resumed(records: map<string, Record>, ids: seq<string>): (r: seq<Record>)
    requires forall id :: id in ids ==> id in records
    ensures |r| == |ids|
  {
    seq(|ids|, i requires 0 <= i < |ids| => records[ids[i]])
  }

  ghost predicate IsReport(log: Log, a: Attempt, ids: seq<string>, report: seq<Record>) {
    && a.finished && !Refuses(log, a.config)
    && Distinct(ids) && (forall id :: id in ids <==> id in DoneBefore(log, a.config))
    && report == Resumed(Existing(log, a.config), ids) + a.rows
  }

  // ---------- the code ----------

  class CheckpointFile {
    var lines: Log

    constructor ()
      ensures lines == []
    {
      lines := [];
    }

    method Append(r: Record)
      modifies this
      ensures lines == old(lines) + [Row(r)]
    {
      lines := lines + [Row(r)];
    }
  }

  datatype Outcome = Refused | Stopped | Finished(report: seq<Record>)

  /** The resume part of `main`. `runQuestion` is the pipeline on one question; the pool may complete the
      pending questions in any order, and the process may stop after any number of appends (`lifetime`). */
  method RunMain(file: CheckpointFile, c: Config, questions: seq<string>, runQuestion: string -> Record, lifetime: nat)
    returns (outcome: Outcome, ghost a: Attempt, ghost ids: seq<string>)
    requires forall q :: runQuestion(q).id == q && runQuestion(q).mode == c.mode && runQuestion(q).digest == c.digest
    modifies file
    ensures a.config == c && a.questions == questions
    ensures Legal(old(file.lines), a) && file.lines == Next(old(file.lines), a)
    ensures forall i :: 0 <= i < |a.rows| ==> a.rows[i] == runQuestion(a.rows[i].id)
    ensures outcome.Refused? <==> Refuses(old(file.lines), c)
    ensures outcome.Finished? <==> a.finished
    ensures outcome.Finished? ==> IsReport(old(file.lines), a, ids, outcome.report)
    ensures outcome.Refused? <==> c.resume && exists id :: AnsweredElsewhere(old(file.lines), c, id)
    ensures !c.resume && outcome.Finished? ==> multiset(outcome.report) == multiset(Answers(runQuestion, questions))
  {
    ids := [];
    var existing := map[];
    if c.resume {
      existing := LoadCheckpoint(file.lines);
    }
    var done := Done(existing, c.mode);
    if exists id :: id in done && existing[id].digest != c.digest {
      a := Attempt(c, questions, [], false);
      assert file.lines + Rows([]) == file.lines;
      RefusedExactly(file.lines, c);
      return Refused, a, ids;
    }
    RefusedExactly(file.lines, c);
    var pending := Pending(questions, done);
    var rows, waiting := CompletePending(file, pending, runQuestion, lifetime);
    assert forall i :: 0 <= i < |rows| ==> rows[i].mode == c.mode && rows[i].digest == c.digest;
    a := Attempt(c, questions, rows, waiting == []);
    if waiting != [] {
      return Stopped, a, ids;
    }
    var listed := SortedIds(done);
    ids := listed;
    var report := Resumed(existing, listed) + rows;
    assert IsReport(old(file.lines), a, ids, report);
    if !c.resume {
      FreshRunReportsItsAnswers(old(file.lines), a, ids, report, runQuestion);
    }
    return Finished(report), a, ids;
  }

  /** The worker pool: every completion is appended at once, then counted as fresh. */
  method CompletePending(file: CheckpointFile, pending: seq<string>, runQuestion: string -> Record, lifetime: nat)
    returns (rows: seq<Record>, waiting: seq<string>)
    requires forall q :: runQuestion(q).id == q
    modifies file
    ensures file.lines == old(file.lines) + Rows(rows)
    ensures multiset(RowIds(rows)) + multiset(waiting) == multiset(pending)
    ensures forall i :: 0 <= i < |rows| ==> rows[i] == runQuestion(rows[i].id)
  {
    rows, waiting := [], pending;
    assert RowIds([]) == [] && file.lines + Rows([]) == file.lines;
    while waiting != [] && |rows| < lifetime
      invariant file.lines == old(file.lines) + Rows(rows)
      invariant multiset(RowIds(rows)) + multiset(waiting) == multiset(pending)
      invariant forall i :: 0 <= i < |rows| ==> rows[i] == runQuestion(rows[i].id)
      decreases |waiting|
    {
      var k :| 0 <= k < |waiting|;
      var record := runQuestion(waiting[k]);
      file.Append(record);
      assert RowIds(rows + [record]) == RowIds(rows) + [waiting[k]];
      assert Rows(rows + [record]) == Rows(rows) + [Row(record)];
      RemoveAt(waiting, k);
      rows := rows + [record];
      waiting := waiting[..k] + waiting[k + 1..];
    }
  }

  // ---------- reports ----------

  /** Every row of a report carries the fingerprint of the run that wrote it. */
  lemma ReportIsUniform(log: Log, a: Attempt, ids: seq<string>, report: seq<Record>)
    requires Legal(log, a) && IsReport(log, a, ids, report)
    ensures forall i :: 0 <= i < |report| ==> report[i].digest == a.config.digest && report[i].mode == a.config.mode
  {
    var n := |ids|;
    forall i | 0 <= i < |report|
      ensures report[i].digest == a.config.digest && report[i].mode == a.config.mode
    {
      if i < n {
        assert ids[i] in DoneBefore(log, a.config);
      } else {
        assert report[i] == a.rows[i - n];
      }
    }
  }

  lemma {:induction false} PendingMembers(questions: seq<string>, done: set<string>)
    requires Distinct(questions)
    ensures Distinct(Pending(questions, done))
    ensures forall q :: q in Pending(questions, done) <==> q in questions && q !in done
  {
    if |questions| > 0 {
      var n := |questions| - 1;
      PendingMembers(questions[..n], done);
      assert questions == questions[..n] + [questions[n]];
    }
  }

  lemma {:induction false} LoadKeysMatch(log: Log)
    ensures forall id :: id in Load(log) ==> Load(log)[id].id == id
  {
    if |log| > 0 {
      LoadKeysMatch(log[..|log| - 1]);
    }
  }

  lemma ReportIds(log: Log, a: Attempt, ids: seq<string>, report: seq<Record>)
    requires Legal(log, a) && IsReport(log, a, ids, report)
    ensures multiset(RowIds(report))
         == multiset(ids) + multiset(Pending(a.questions, DoneBefore(log, a.config)))
  {
    LoadKeysMatch(log);
    forall i | 0 <= i < |ids|
      ensures ids[i] in Existing(log, a.config) && Existing(log, a.config)[ids[i]].id == ids[i]
    {
      assert ids[i] in DoneBefore(log, a.config);
    }
    assert RowIds(report) == ids + RowIds(a.rows);
  }

  /** A report holds every question of the run exactly once, and nothing else, if and only if every question
      the checkpoint already holds as done belongs to the run (the fingerprint does not cover `--limit`, so
      a shorter resumed run can report more questions than it was asked for). */
  lemma ReportCoversQuestions(log: Log, a: Attempt, ids: seq<string>, report: seq<Record>)
    requires Legal(log, a) && IsReport(log, a, ids, report) && Distinct(a.questions)
    ensures multiset(RowIds(report)) == multiset(a.questions)
       <==> forall id :: id in DoneBefore(log, a.config) ==> id in a.questions
  {
    var done := DoneBefore(log, a.config);
    var pending := Pending(a.questions, done);
    ReportIds(log, a, ids, report);
    PendingMembers(a.questions, done);
    DistinctConcat(ids, pending);
    if forall id :: id in done ==> id in a.questions {
      SameMembersSameBag(ids + pending, a.questions);
    } else {
      var id :| id in done && id !in a.questions;
      assert id in ids && id in multiset(ids + pending) && id !in multiset(a.questions);
    }
  }

  // ---------- a run that does not resume ----------

  lemma {:induction false} NothingDonePending(questions: seq<string>)
    ensures Pending(questions, {}) == questions
  {
    if |questions| > 0 {
      NothingDonePending(questions[..|questions| - 1]);
    }
  }

  /** What the rows of a run that starts afresh are, whatever the log holds: each question at most once, in any
      order, all of them if it finishes. */
  lemma FreshRunIgnoresLog(log: Log, a: Attempt)
    requires Legal(log, a) && !a.config.resume
    ensures !Refuses(log, a.config)
    ensures multiset(RowIds(a.rows)) <= multiset(a.questions)
    ensures a.finished ==> multiset(RowIds(a.rows)) == multiset(a.questions)
  {
    assert DoneBefore(log, a.config) == {};
    NothingDonePending(a.questions);
  }

  /** Without resuming nothing is refused, and the report of a finished run holds the pipeline's answer to each of
      its questions and nothing else, whatever the log held before. */
  lemma FreshRunReportsItsAnswers(log: Log, a: Attempt, ids: seq<string>, report: seq<Record>, runQuestion: string -> Record)
    requires Legal(log, a) && !a.config.resume && IsReport(log, a, ids, report)
    requires forall i :: 0 <= i < |a.rows| ==> a.rows[i] == runQuestion(a.rows[i].id)
    ensures multiset(report) == multiset(Answers(runQuestion, a.questions))
  {
    FreshRunIgnoresLog(log, a);
    NoMembers(ids);
    assert Members(ids) == DoneBefore(log, a.config);
    assert report == a.rows;
    assert a.rows == Map(runQuestion, RowIds(a.rows));
    MapPermutes(runQuestion, RowIds(a.rows), a.questions);
  }

  /** The rows of one uninterrupted run. */
  function Answers(runQuestion: string -> Record, ids: seq<string>): (r: seq<Record>)
    ensures |r| == |ids|
  {
    Map(runQuestion, ids)
  }

  // ---------- what the last rows decide ----------

  /** The question's last readable row is a good answer in this mode. */
  ghost predicate Answered(log: Log, mode: string, id: string) {
    exists i: nat :: LastRow(log, i, id) && log[i].record.ok && log[i].record.mode == mode
  }

  /** Such an answer was produced under another fingerprint. */
  ghost predicate AnsweredElsewhere(log: Log, c: Config, id: string) {
    exists i: nat :: LastRow(log, i, id) && log[i].record.ok && log[i].record.mode == c.mode && log[i].record.digest != c.digest
  }

  lemma DoneIsAnswered(log: Log, c: Config, id: string)
    ensures id in DoneBefore(log, c) <==> c.resume && Answered(log, c.mode, id)
    ensures id in DoneBefore(log, c) && Existing(log, c)[id].digest != c.digest
       <==> c.resume && AnsweredElsewhere(log, c, id)
  {
    if id in Load(log) {
      var i := LoadedHasRow(log, id);
      LoadIsLastRow(log, i, id);
    }
    forall i: nat | LastRow(log, i, id)
      ensures id in Load(log) && Load(log)[id] == log[i].record
    {
      LoadIsLastRow(log, i, id);
    }
  }

  /** A run is refused exactly when it resumes and some question's last row is a good answer of its mode with
      another fingerprint. */
  lemma RefusedExactly(log: Log, c: Config)
    ensures Refuses(log, c) <==> c.resume && exists id :: AnsweredElsewhere(log, c, id)
  {
    forall id
      ensures id in DoneBefore(log, c) && Existing(log, c)[id].digest != c.digest
         <==> c.resume && AnsweredElsewhere(log, c, id)
    {
      DoneIsAnswered(log, c, id);
    }
  }

  lemma RowIdMembers(rows: seq<Record>, id: string)
    ensures id in multiset(RowIds(rows)) <==> id in RowIds(rows)
  {
  }

  /** A finished run executes exactly those of its questions that it does not resume from a good last row: failed
      ones and ones of another mode again, and all of them without resuming. */
  lemma RunsWhatIsMissing(log: Log, a: Attempt, id: string)
    requires Legal(log, a) && a.finished && Distinct(a.questions)
    ensures id in RowIds(a.rows) <==> id in a.questions && !(a.config.resume && Answered(log, a.config.mode, id))
  {
    var pending := Pending(a.questions, DoneBefore(log, a.config));
    PendingMembers(a.questions, DoneBefore(log, a.config));
    DoneIsAnswered(log, a.config, id);
    RowIdMembers(a.rows, id);
    assert id in multiset(pending) <==> id in pending;
  }

  // ---------- histories ----------

  /** A sequence of runs, each started on the log the previous ones left. */
  ghost predicate LegalHistory(log: Log, history: seq<Attempt>)
    decreases |history|
  {
    |history| > 0 ==> Legal(log, history[0]) && LegalHistory(Next(log, history[0]), history[1..])
  }

  function After(log: Log, history: seq<Attempt>): Log
    decreases |history|
  {
    if |history| == 0 then log else After(Next(log, history[0]), history[1..])
  }

  /** A run over two questions on an empty checkpoint, to the end. */
  function FullRun(c: Config, first: Record, second: Record): Attempt {
    Attempt(c, [first.id, second.id], [first, second], true)
  }

  /** The same configuration resumed with a limit of one question: nothing is left to run. */
  function LimitedRun(c: Config, first: Record): Attempt {
    Attempt(c.(resume := true), [first.id], [], true)
  }

  predicate DoneRow(r: Record, c: Config) {
    r.ok && r.mode == c.mode && r.digest == c.digest
  }

  lemma TwoRowsLoaded(first: Record, second: Record)
    ensures Load(Rows([first, second])) == map[first.id := first, second.id := second]
  {
    var log := Rows([first, second]);
    assert log == [Row(first), Row(second)] && log[..1] == [Row(first)] && log[..1][..0] == [];
    assert Load(log[..1][..0]) == map[];
    assert Load(log[..1]) == map[first.id := first];
  }

  lemma PendingOfOne(id: string, done: set<string>)
    ensures Pending([id], done) == if id in done then [] else [id]
  {
    assert [id][..0] == [] && Pending([], done) == [];
  }

  lemma FullRunIsLegal(c: Config, first: Record, second: Record)
    requires DoneRow(first, c) && DoneRow(second, c)
    ensures Legal([], FullRun(c, first, second))
  {
    var a := FullRun(c, first, second);
    assert DoneBefore([], c) == {};
    PendingOfOne(first.id, {});
    assert a.questions[..1] == [first.id];
    assert Pending(a.questions, {}) == a.questions;
    assert RowIds(a.rows) == a.questions;
  }

  lemma LimitedRunIsLegal(log: Log, c: Config, first: Record, second: Record)
    requires DoneRow(first, c) && DoneRow(second, c) && c.resume
    requires Load(log) == map[first.id := first, second.id := second]
    ensures DoneBefore(log, c) == {first.id, second.id} && Legal(log, LimitedRun(c, first))
  {
    assert DoneBefore(log, c) == {first.id, second.id};
    PendingOfOne(first.id, DoneBefore(log, c));
    assert RowIds([]) == [];
  }

  /** The failing case is real: after a full run over two questions, a resumed run of the same configuration that is
      limited to the first finishes without running anything, and reports both. */
  lemma LimitedRunReportsBoth(c: Config, first: Record, second: Record)
    requires DoneRow(first, c) && DoneRow(second, c) && c.resume && first.id != second.id
    ensures var full, limited := FullRun(c, first, second), LimitedRun(c, first);
            && Legal([], full) && Legal(Next([], full), limited)
            && IsReport(Next([], full), limited, [first.id, second.id], [first, second])
            && limited.questions == [first.id]
  {
    var full, limited := FullRun(c, first, second), LimitedRun(c, first);
    FullRunIsLegal(c, first, second);
    var log := Next([], full);
    assert log == Rows([first, second]);
    TwoRowsLoaded(first, second);
    LimitedRunIsLegal(log, c, first, second);
    assert Resumed(Load(log), [first.id, second.id]) == [first, second];
  }

  // ---------- crash-equivalence ----------

  /** All runs are of one configuration on one question list with a deterministic pipeline; any of them may
      or may not resume. */
  ghost predicate OneConfiguration(history: seq<Attempt>, mode: string, digest: string, questions: seq<string>,
                                   runQuestion: string -> Record) {
    forall i :: 0 <= i < |history| ==> SameSetup(history[i], mode, digest, questions, runQuestion)
  }

  ghost predicate SameSetup(a: Attempt, mode: string, digest: string, questions: seq<string>, runQuestion: string -> Record) {
    && a.config.mode == mode && a.config.digest == digest && a.questions == questions
    && forall i :: 0 <= i < |a.rows| ==> a.rows[i] == runQuestion(a.rows[i].id)
  }

  /** Every row of the log is the pipeline's answer to one of the questions. */
  ghost predicate Faithful(log: Log, questions: seq<string>, runQuestion: string -> Record) {
    forall i :: 0 <= i < |log| ==>
      log[i].Row? && log[i].record == runQuestion(log[i].record.id) && log[i].record.id in questions
  }

  lemma {:induction false} FaithfulLoad(log: Log, questions: seq<string>, runQuestion: string -> Record)
    requires Faithful(log, questions, runQuestion)
    ensures forall id :: id in Load(log) ==> Load(log)[id] == runQuestion(id) && id in questions
  {
    if |log| > 0 {
      FaithfulLoad(log[..|log| - 1], questions, runQuestion);
    }
  }

  lemma RowsArePending(log: Log, a: Attempt, i: nat)
    requires Legal(log, a) && Distinct(a.questions) && i < |a.rows|
    ensures a.rows[i].id in a.questions && a.rows[i].id !in DoneBefore(log, a.config)
  {
    PendingMembers(a.questions, DoneBefore(log, a.config));
    assert RowIds(a.rows)[i] in multiset(RowIds(a.rows));
    assert RowIds(a.rows)[i] in Pending(a.questions, DoneBefore(log, a.config));
  }

  lemma RunStaysFaithful(log: Log, a: Attempt, mode: string, digest: string, runQuestion: string -> Record)
    requires Legal(log, a) && Distinct(a.questions) && Faithful(log, a.questions, runQuestion)
    requires SameSetup(a, mode, digest, a.questions, runQuestion)
    ensures Faithful(Next(log, a), a.questions, runQuestion)
  {
    forall i | 0 <= i < |a.rows|
      ensures a.rows[i].id in a.questions
    {
      RowsArePending(log, a, i);
    }
  }

  lemma {:induction false} HistoryStaysFaithful(log: Log, history: seq<Attempt>, mode: string, digest: string,
                                                questions: seq<string>, runQuestion: string -> Record)
    requires LegalHistory(log, history) && Distinct(questions) && Faithful(log, questions, runQuestion)
    requires OneConfiguration(history, mode, digest, questions, runQuestion)
    ensures Faithful(After(log, history), questions, runQuestion)
    decreases |history|
  {
    if |history| > 0 {
      assert SameSetup(history[0], mode, digest, questions, runQuestion);
      RunStaysFaithful(log, history[0], mode, digest, runQuestion);
      HistoryStaysFaithful(Next(log, history[0]), history[1..], mode, digest, questions, runQuestion);
    }
  }

  /** However many runs of one configuration were started on an empty checkpoint, whether they resumed, where
      each of them stopped and in which order its workers completed, the report of a run that gets to the end
      holds exactly the rows of one uninterrupted run: the answer to every question once. */
  lemma CrashesDoNotShow(history: seq<Attempt>, last: Attempt, ids: seq<string>, report: seq<Record>,
                         mode: string, digest: string, questions: seq<string>, runQuestion: string -> Record)
    requires Distinct(questions)
    requires LegalHistory([], history) && OneConfiguration(history, mode, digest, questions, runQuestion)
    requires Legal(After([], history), last) && SameSetup(last, mode, digest, questions, runQuestion)
    requires IsReport(After([], history), last, ids, report)
    ensures multiset(report) == multiset(Answers(runQuestion, questions))
  {
    var log := After([], history);
    HistoryStaysFaithful([], history, mode, digest, questions, runQuestion);
    FaithfulLoad(log, questions, runQuestion);
    ReportCoversQuestions(log, last, ids, report);
    forall i | 0 <= i < |report|
      ensures report[i] == runQuestion(report[i].id)
    {
      if i < |ids| {
        assert ids[i] in DoneBefore(log, last.config);
        LoadKeysMatch(log);
      } else {
        assert report[i] == last.rows[i - |ids|];
      }
    }
    assert report == Answers(runQuestion, RowIds(report));
    MapPermutes(runQuestion, RowIds(report), questions);
  }

  /** In such a history the fingerprint gate never stands in the way. */
  lemma OneConfigurationIsNeverRefused(history: seq<Attempt>, c: Config, questions: seq<string>, runQuestion: string -> Record)
    requires Distinct(questions)
    requires LegalHistory([], history) && OneConfiguration(history, c.mode, c.digest, questions, runQuestion)
    requires forall q :: runQuestion(q).digest == c.digest
    ensures !Refuses(After([], history), c)
  {
    HistoryStaysFaithful([], history, c.mode, c.digest, questions, runQuestion);
    FaithfulLoad(After([], history), questions, runQuestion);
  }

  // ---------- the done-set only grows ----------

  lemma {:induction false} LoadAfterRows(log: Log, rows: seq<Record>, id: string)
    ensures id in Load(log + Rows(rows)) <==> id in Load(log) || id in RowIds(rows)
    ensures id !in RowIds(rows) && id in Load(log) ==> Load(log + Rows(rows))[id] == Load(log)[id]
  {
    if |rows| == 0 {
      assert log + Rows(rows) == log;
    } else {
      var n := |rows| - 1;
      LoadAfterRows(log, rows[..n], id);
      var all := log + Rows(rows);
      assert all[..|all| - 1] == log + Rows(rows[..n]);
      assert RowIds(rows) == RowIds(rows[..n]) + [rows[n].id];
    }
  }

  /** A resumed run keeps the record of every question that was done in its mode. */
  lemma ResumeKeepsDone(log: Log, a: Attempt, id: string)
    requires Legal(log, a) && a.config.resume && Distinct(a.questions)
    requires id in Done(Load(log), a.config.mode)
    ensures id !in RowIds(a.rows)
    ensures id in Done(Load(Next(log, a)), a.config.mode) && Load(Next(log, a))[id] == Load(log)[id]
  {
    if id in RowIds(a.rows) {
      var i :| 0 <= i < |a.rows| && RowIds(a.rows)[i] == id;
      RowsArePending(log, a, i);
    }
    LoadAfterRows(log, a.rows, id);
  }

  ghost predicate ResumesOneMode(history: seq<Attempt>, mode: string) {
    forall i :: 0 <= i < |history| ==>
      history[i].config.resume && history[i].config.mode == mode && Distinct(history[i].questions)
  }

  /** Along resumed runs of one mode, whatever their fingerprints, question lists and outcomes, a question once
      done stays done with the same record, and no later run executes it again. */
  lemma {:induction false} DoneSetNeverShrinks(log: Log, history: seq<Attempt>, mode: string, id: string)
    requires LegalHistory(log, history) && ResumesOneMode(history, mode)
    requires id in Done(Load(log), mode)
    ensures id in Done(Load(After(log, history)), mode) && Load(After(log, history))[id] == Load(log)[id]
    ensures forall i :: 0 <= i < |history| ==> id !in RowIds(history[i].rows)
    decreases |history|
  {
    if |history| > 0 {
      ResumeKeepsDone(log, history[0], id);
      DoneSetNeverShrinks(Next(log, history[0]), history[1..], mode, id);
      forall i | 0 <= i < |history|
        ensures id !in RowIds(history[i].rows)
      {
        if i > 0 {
          assert history[i] == history[1..][i - 1];
        }
      }
    }
  }

  // ---------- torn writes ----------

  /** The file with its last line possibly cut before the newline: nothing, part of a row, or a whole row. */
  datatype Tail = Clean | PartOfRow | WholeRow(record: Record)

  datatype TornFile = TornFile(lines: Log, tail: Tail)

  /** Reading takes the unterminated last line like any other. */
  function Readable(f: TornFile): Log {
    match f.tail
    case Clean => f.lines
    case PartOfRow => f.lines + [Corrupt]
    case WholeRow(r) => f.lines + [Row(r)]
  }

  /** Appending behind an unterminated line fuses both into one line that does not parse. */
  function AppendTo(f: TornFile, r: Record): TornFile {
    if f.tail.Clean? then TornFile(f.lines + [Row(r)], Clean) else TornFile(f.lines + [Corrupt], Clean)
  }

  lemma LoadAppended(log: Log, line: Line)
    ensures Load(log + [line]) == match line case Row(r) => Load(log)[r.id := r] case Corrupt => Load(log)
  {
    assert (log + [line])[..|log|] == log;
  }

  lemma DoneAfterRow(records: map<string, Record>, r: Record, mode: string)
    ensures Done(records[r.id := r], mode)
         == (if r.ok && r.mode == mode then Done(records, mode) + {r.id} else Done(records, mode) - {r.id})
  {
  }

  /** With torn writes the done-set can shrink. Appending a row for a question that is not done keeps every
      done question if and only if no done question rests on the unterminated last line alone. */
  lemma TornAppendKeepsDone(f: TornFile, r: Record, mode: string)
    requires r.id !in Done(Load(Readable(f)), mode)
    ensures Done(Load(Readable(f)), mode) <= Done(Load(Readable(AppendTo(f, r))), mode)
       <==> !(f.tail.WholeRow? && f.tail.record.ok && f.tail.record.mode == mode
              && f.tail.record.id !in Done(Load(f.lines), mode))
  {
    var records := Load(f.lines);
    LoadAppended(f.lines, Row(r));
    LoadAppended(f.lines, Corrupt);
    DoneAfterRow(records, r, mode);
    match f.tail {
      case Clean =>
      case PartOfRow =>
      case WholeRow(t) =>
        LoadAppended(f.lines, Row(t));
        DoneAfterRow(records, t, mode);
    }
  }
}
