/** Verification of the release archive index: an index without reported errors describes distinct archived
    summaries in order of creation, each agreeing with the summary file it names. */
module ArchiveIndex {
  import opened Text
  import opened Values
  import opened Wrappers

  const INDEX_VERSION := "phase4_rc_archive_index.v1"
  const SUMMARY_VERSION := "phase4_rc_summary.v1"
  const INDUCED := "induced_failure:"

  type Path = string
  type Fields = map<string, Value>

  datatype Node = Directory | File(bytes: string)

  /** What exists, by path. */
  type Disk = map<Path, Node>

  /** Path arithmetic, JSON parsing, the date format and the checksum, as the scripts call them. */
  datatype System = System(
    rooted: string -> Path,            // a relative path taken from the repository root
    located: string -> Path,           // the same, with links, `~` and `..` resolved
    resolved: Path -> Path,            // with links and `..` resolved
    child: (Path, string) -> Path,
    within: (Path, Path) -> bool,      // the first is at or below the second
    allowedRoot: Path -> Path,         // the directory an index may cover
    dated: string -> bool,             // matches %Y-%m-%dT%H:%M:%SZ
    parse: string -> Option<Fields>,   // None: not a JSON object
    hash: string -> string)

  /** One complaint, named after what it complains about. */
  datatype Issue =
    | IndexMissing | IndexUnreadable | BadVersion | BadLatestSummary | BadArchiveDir | BadIndexPath | LockLeft
    | EntriesNotAList | EntryNotAnObject | BadDate | BadArtifactPath | DuplicatePath | OutsideArchive
    | ArtifactMissing | ArtifactUnreadable | BadSummaryVersion | PathMismatch | BadDecision | DecisionMismatch
    | ExitCodeMismatch | FailingStepsMismatch | BadSteps | BadMode | BadExitCode | BadFailingSteps | OutOfOrder

  /** `_load_json_object`, None standing for its exceptions. */
  function LoadObject(sys: System, disk: Disk, path: Path): Option<Fields> {
    if path in disk && disk[path].File? then sys.parse(disk[path].bytes) else None
  }

  // ---------- one entry against its summary ----------

  predicate StringList(v: Value) {
    v.List? && forall i :: 0 <= i < |v.items| ==> v.items[i].Str?
  }

  predicate ModeAllowed(mode: Value, steps: Value) {
    && mode.Str?
    && (mode.s == "default"
        || (INDUCED <= mode.s && StringList(steps) && Str(mode.s[|INDUCED|..]) in steps.items))
  }

  /** GO means exit code 0 and nothing failing, NO_GO exit code 1 and something failing. */
  predicate DecisionFollows(summary: Fields) {
    var decision, exitCode, failing := Get(summary, "final_decision"), Get(summary, "summary_exit_code"),
                                       Get(summary, "failing_steps");
    || (decision == Str("GO") && exitCode == Num(0.0) && failing == List([]))
    || (decision == Str("NO_GO") && exitCode == Num(1.0) && failing.List? && |failing.items| > 0)
  }

  predicate Agrees(entry: Fields, summary: Fields, key: string) {
    Get(entry, key) == Get(summary, key)
  }

  predicate SummaryAccepted(entry: Fields, summary: Fields, path: string) {
    && Get(summary, "artifact_version") == Str(SUMMARY_VERSION)
    && Get(summary, "artifact_path") == Str(path)
    && Agrees(entry, summary, "final_decision")
    && Agrees(entry, summary, "summary_exit_code")
    && Agrees(entry, summary, "failing_steps")
    && StringList(Get(summary, "ordered_steps"))
    && ModeAllowed(Get(entry, "command_mode"), Get(summary, "ordered_steps"))
    && DecisionFollows(summary)
  }

  predicate IsDecision(v: Value) {
    v == Str("GO") || v == Str("NO_GO")
  }

  /** `decided` is false where the loop moves on to the next entry before the checks of the decision. */
  method SummaryIssues(entry: Fields, summary: Fields, path: string) returns (issues: seq<Issue>, decided: bool)
    ensures issues == [] <==> SummaryAccepted(entry, summary, path)
    ensures issues == [] ==> decided
  {
    issues := [];
    if Get(summary, "artifact_version") != Str(SUMMARY_VERSION) {
      issues := issues + [BadSummaryVersion];
    }
    if Get(summary, "artifact_path") != Str(path) {
      issues := issues + [PathMismatch];
    }
    decided := IsDecision(Get(summary, "final_decision"));
    if !decided {
      issues := issues + [BadDecision];
      return;
    }
    var mismatches := MismatchIssues(entry, summary);
    var steps := StepIssues(entry, summary);
    var decisions := DecisionIssues(summary);
    issues := issues + mismatches + steps + decisions;
  }

  method MismatchIssues(entry: Fields, summary: Fields) returns (issues: seq<Issue>)
    ensures issues == [] <==>
            && Agrees(entry, summary, "final_decision")
            && Agrees(entry, summary, "summary_exit_code")
            && Agrees(entry, summary, "failing_steps")
  {
    issues := [];
    if !Agrees(entry, summary, "final_decision") {
      issues := issues + [DecisionMismatch];
    }
    if !Agrees(entry, summary, "summary_exit_code") {
      issues := issues + [ExitCodeMismatch];
    }
    if !Agrees(entry, summary, "failing_steps") {
      issues := issues + [FailingStepsMismatch];
    }
  }

  method StepIssues(entry: Fields, summary: Fields) returns (issues: seq<Issue>)
    ensures issues == [] <==>
            && StringList(Get(summary, "ordered_steps"))
            && ModeAllowed(Get(entry, "command_mode"), Get(summary, "ordered_steps"))
  {
    issues := [];
    if !StringList(Get(summary, "ordered_steps")) {
      issues := issues + [BadSteps];
    }
    if !ModeAllowed(Get(entry, "command_mode"), Get(summary, "ordered_steps")) {
      issues := issues + [BadMode];
    }
  }

  method DecisionIssues(summary: Fields) returns (issues: seq<Issue>)
    requires IsDecision(Get(summary, "final_decision"))
    ensures issues == [] <==> DecisionFollows(summary)
  {
    issues := [];
    var exitCode, failing := Get(summary, "summary_exit_code"), Get(summary, "failing_steps");
    if Get(summary, "final_decision") == Str("GO") {
      if exitCode != Num(0.0) {
        issues := issues + [BadExitCode];
      }
      if failing != List([]) {
        issues := issues + [BadFailingSteps];
      }
    } else {
      if exitCode != Num(1.0) {
        issues := issues + [BadExitCode];
      }
      if !failing.List? || |failing.items| == 0 {
        issues := issues + [BadFailingSteps];
      }
    }
  }

  // ---------- the entry loop ----------

  /** The archived summary an entry names, and the archive directory it has to be in when that is known. */
  predicate EntryAccepted(sys: System, disk: Disk, archive: Option<Path>, entry: Value) {
    && entry.Dict?
    && var created, path := Get(entry.fields, "created_at"), Get(entry.fields, "archive_artifact_path");
    && created.Str? && sys.dated(created.s)
    && path.Str?
    && (archive.Some? ==> sys.within(sys.rooted(path.s), archive.value))
    && var summary := LoadObject(sys, disk, sys.rooted(path.s));
    && summary.Some?
    && SummaryAccepted(entry.fields, summary.value, path.s)
  }

  function PathOf(entry: Value): string {
    if entry.Dict? && Get(entry.fields, "archive_artifact_path").Str?
    then Get(entry.fields, "archive_artifact_path").s else ""
  }

  function CreatedAt(entry: Value): string {
    if entry.Dict? && Get(entry.fields, "created_at").Str? then Get(entry.fields, "created_at").s else ""
  }

  predicate DistinctPaths(entries: seq<Value>) {
    forall i, j :: 0 <= i < j < |entries| ==> PathOf(entries[i]) != PathOf(entries[j])
  }

  predicate Chronological(entries: seq<Value>) {
    forall i, j :: 0 <= i < j < |entries| ==> LexLe(CreatedAt(entries[i]), CreatedAt(entries[j]))
  }

  predicate AllAccepted(sys: System, disk: Disk, archive: Option<Path>, entries: seq<Value>) {
    forall i :: 0 <= i < |entries| ==> EntryAccepted(sys, disk, archive, entries[i])
  }

  predicate EntriesAccepted(sys: System, disk: Disk, archive: Option<Path>, entries: seq<Value>) {
    AllAccepted(sys, disk, archive, entries) && DistinctPaths(entries) && Chronological(entries)
  }

  function Paths(entries: seq<Value>): (r: set<string>) {
    set i | 0 <= i < |entries| :: PathOf(entries[i])
  }

  function LastCreated(entries: seq<Value>): Option<string> {
    if |entries| == 0 then None else Some(CreatedAt(entries[|entries| - 1]))
  }

  predicate InOrder(previous: Option<string>, created: string) {
    previous.Some? ==> LexLe(previous.value, created)
  }

  ghost predicate Extends(sys: System, disk: Disk, archive: Option<Path>, before: seq<Value>, entry: Value) {
    && EntryAccepted(sys, disk, archive, entry)
    && PathOf(entry) !in Paths(before)
    && InOrder(LastCreated(before), CreatedAt(entry))
  }

  /** One more entry: only the last date has to be compared, only the paths seen have to be known. */
  lemma OneMoreEntry(sys: System, disk: Disk, archive: Option<Path>, entries: seq<Value>, i: nat)
    requires i < |entries|
    ensures EntriesAccepted(sys, disk, archive, entries[..i + 1]) <==>
            EntriesAccepted(sys, disk, archive, entries[..i]) && Extends(sys, disk, archive, entries[..i], entries[i])
    ensures Paths(entries[..i + 1]) == Paths(entries[..i]) + {PathOf(entries[i])}
    ensures LastCreated(entries[..i + 1]) == Some(CreatedAt(entries[i]))
  {
    var before, after := entries[..i], entries[..i + 1];
    assert after[..i] == before && after[i] == entries[i] && after == before + [entries[i]];
    if EntriesAccepted(sys, disk, archive, after) {
      AcceptedPrefix(sys, disk, archive, after, i);
    }
    if EntriesAccepted(sys, disk, archive, before) && Extends(sys, disk, archive, before, entries[i]) {
      OrderExtends(before, entries[i]);
      PathsExtend(before, entries[i]);
    }
  }

  lemma PathsExtend(before: seq<Value>, entry: Value)
    requires DistinctPaths(before) && PathOf(entry) !in Paths(before)
    ensures DistinctPaths(before + [entry])
  {
    forall i | 0 <= i < |before|
      ensures PathOf(before[i]) != PathOf(entry)
    {
      assert PathOf(before[i]) in Paths(before);
    }
  }

  lemma AcceptedPrefix(sys: System, disk: Disk, archive: Option<Path>, after: seq<Value>, i: nat)
    requires |after| == i + 1 && EntriesAccepted(sys, disk, archive, after)
    ensures EntriesAccepted(sys, disk, archive, after[..i])
    ensures Extends(sys, disk, archive, after[..i], after[i])
  {
  }

  lemma OrderExtends(before: seq<Value>, entry: Value)
    requires Chronological(before) && InOrder(LastCreated(before), CreatedAt(entry))
    ensures Chronological(before + [entry])
  {
    var after, n := before + [entry], |before|;
    forall i, j | 0 <= i < j < |after|
      ensures LexLe(CreatedAt(after[i]), CreatedAt(after[j]))
    {
      if j == n && i < n - 1 {
        LexTransitive(CreatedAt(before[i]), CreatedAt(before[n - 1]), CreatedAt(entry));
      }
    }
  }

  method EntryIssues(sys: System, disk: Disk, archive: Option<Path>, entry: Value, seen: set<string>,
                     previous: Option<string>)
    returns (issues: seq<Issue>, seen': set<string>, previous': Option<string>)
    ensures issues == [] <==>
            && EntryAccepted(sys, disk, archive, entry)
            && PathOf(entry) !in seen && InOrder(previous, CreatedAt(entry))
    ensures issues == [] ==> seen' == seen + {PathOf(entry)} && previous' == Some(CreatedAt(entry))
  {
    issues, seen', previous' := [], seen, previous;
    if !entry.Dict? {
      issues := [EntryNotAnObject];
      return;
    }
    var created, path := Get(entry.fields, "created_at"), Get(entry.fields, "archive_artifact_path");
    if !created.Str? || !sys.dated(created.s) {
      issues := issues + [BadDate];
    }
    if !path.Str? {
      issues := issues + [BadArtifactPath];
      return;
    }
    if path.s in seen {
      issues := issues + [DuplicatePath];
      return;
    }
    seen' := seen + {path.s};
    var artifact := sys.rooted(path.s);
    if archive.Some? && !sys.within(artifact, archive.value) {
      issues := issues + [OutsideArchive];
    }
    if artifact !in disk {
      issues := issues + [ArtifactMissing];
      return;
    }
    var summary := LoadObject(sys, disk, artifact);
    if summary.None? {
      issues := issues + [ArtifactUnreadable];
      return;
    }
    var summaryIssues, decided := SummaryIssues(entry.fields, summary.value, path.s);
    issues := issues + summaryIssues;
    if !decided {
      return;
    }
    if created.Str? {
      if previous.Some? && !LexLe(previous.value, created.s) {
        issues := issues + [OutOfOrder];
      }
      previous' := Some(created.s);
    }
  }

  /** The loop skips the rest of an entry at its first grave defect, also the bookkeeping of paths and dates;
      that never hides anything, because a skipped entry has been reported. */
  method EntryLoop(sys: System, disk: Disk, archive: Option<Path>, entries: seq<Value>) returns (errors: seq<Issue>)
    ensures errors == [] <==> EntriesAccepted(sys, disk, archive, entries)
  {
    errors := [];
    var seen, previous := {}, None;
    for i := 0 to |entries|
      invariant errors == [] <==> EntriesAccepted(sys, disk, archive, entries[..i])
      invariant errors == [] ==> seen == Paths(entries[..i]) && previous == LastCreated(entries[..i])
    {
      OneMoreEntry(sys, disk, archive, entries, i);
      var issues;
      issues, seen, previous := EntryIssues(sys, disk, archive, entries[i], seen, previous);
      errors := errors + issues;
    }
    assert entries[..|entries|] == entries;
  }

  // ---------- the whole index ----------

  predicate DirectoryAccepted(sys: System, disk: Disk, index: Path, fields: Fields) {
    var dir := Get(fields, "archive_dir");
    && dir.Str? && sys.rooted(dir.s) in disk
    && sys.resolved(index) == sys.resolved(sys.child(sys.rooted(dir.s), "index.json"))
    && sys.child(sys.rooted(dir.s), "index.lock") !in disk
  }

  predicate HeaderAccepted(sys: System, disk: Disk, index: Path, fields: Fields) {
    var latest := Get(fields, "latest_summary_path");
    && Get(fields, "artifact_version") == Str(INDEX_VERSION)
    && latest.Str? && sys.rooted(latest.s) in disk
    && DirectoryAccepted(sys, disk, index, fields)
  }

  function ArchiveDir(sys: System, fields: Fields): Option<Path> {
    var dir := Get(fields, "archive_dir");
    if dir.Str? then Some(sys.rooted(dir.s)) else None
  }

  predicate IndexAccepted(sys: System, disk: Disk, index: Path) {
    var doc := LoadObject(sys, disk, index);
    && doc.Some?
    && HeaderAccepted(sys, disk, index, doc.value)
    && Get(doc.value, "entries").List?
    && EntriesAccepted(sys, disk, ArchiveDir(sys, doc.value), Get(doc.value, "entries").items)
  }

  method HeaderIssues(sys: System, disk: Disk, index: Path, fields: Fields) returns (errors: seq<Issue>)
    ensures errors == [] <==> HeaderAccepted(sys, disk, index, fields)
  {
    errors := [];
    if Get(fields, "artifact_version") != Str(INDEX_VERSION) {
      errors := errors + [BadVersion];
    }
    var latest := Get(fields, "latest_summary_path");
    if !latest.Str? || sys.rooted(latest.s) !in disk {
      errors := errors + [BadLatestSummary];
    }
    var dir := Get(fields, "archive_dir");
    if !dir.Str? || sys.rooted(dir.s) !in disk {
      errors := errors + [BadArchiveDir];
    } else {
      if sys.resolved(index) != sys.resolved(sys.child(sys.rooted(dir.s), "index.json")) {
        errors := errors + [BadIndexPath];
      }
      if sys.child(sys.rooted(dir.s), "index.lock") in disk {
        errors := errors + [LockLeft];
      }
    }
  }

  // ---------- honest archives ----------

  /** A release-candidate run as it was: where its summary lies, when it was archived, how it was started, its steps
      and what it lists as failed. */
  datatype Run = Run(path: string, created: string, induced: Option<string>, steps: seq<string>, failing: seq<Value>)

  function Strings(ss: seq<string>): (r: seq<Value>)
    ensures |r| == |ss|
  {
    seq(|ss|, i requires 0 <= i < |ss| => Str(ss[i]))
  }

  /** The outcome fields that entry and summary share: GO and 0 for a run without failing steps, NO_GO and 1 else. */
  predicate TellsOutcome(fields: Fields, run: Run) {
    && Get(fields, "final_decision") == Str(if run.failing == [] then "GO" else "NO_GO")
    && Get(fields, "summary_exit_code") == Num(if run.failing == [] then 0.0 else 1.0)
    && Get(fields, "failing_steps") == List(run.failing)
  }

  predicate TellsSummary(fields: Fields, run: Run) {
    && TellsOutcome(fields, run)
    && Get(fields, "artifact_version") == Str("phase4_rc_summary.v1") && Get(fields, "artifact_path") == Str(run.path)
    && Get(fields, "ordered_steps") == List(Strings(run.steps))
  }

  /** The entry tells the run and the file it names holds the run's summary. */
  predicate TellsEntry(sys: System, disk: Disk, dir: string, entry: Value, run: Run) {
    && entry.Dict? && TellsOutcome(entry.fields, run)
    && Get(entry.fields, "created_at") == Str(run.created) && sys.dated(run.created)
    && Get(entry.fields, "archive_artifact_path") == Str(run.path)
    && Get(entry.fields, "command_mode")
       == Str(if run.induced.None? then "default" else "induced_failure:" + run.induced.value)
    && (run.induced.Some? ==> run.induced.value in run.steps)
    && sys.within(sys.rooted(run.path), sys.rooted(dir))
    && var summary := LoadObject(sys, disk, sys.rooted(run.path));
       summary.Some? && TellsSummary(summary.value, run)
  }

  predicate TellsEntries(sys: System, disk: Disk, dir: string, entries: seq<Value>, runs: seq<Run>) {
    |entries| == |runs| && forall i :: 0 <= i < |runs| ==> TellsEntry(sys, disk, dir, entries[i], runs[i])
  }

  predicate TellsHeader(sys: System, disk: Disk, index: Path, fields: Fields, dir: string, latest: string) {
    && Get(fields, "artifact_version") == Str("phase4_rc_archive_index.v1")
    && Get(fields, "latest_summary_path") == Str(latest) && sys.rooted(latest) in disk
    && Get(fields, "archive_dir") == Str(dir) && sys.rooted(dir) in disk
    && sys.resolved(index) == sys.resolved(sys.child(sys.rooted(dir), "index.json"))
    && sys.child(sys.rooted(dir), "index.lock") !in disk
  }

  /** An index of these runs: each once, in the order they were archived. */
  predicate HonestIndex(sys: System, disk: Disk, index: Path, dir: string, latest: string, runs: seq<Run>) {
    var doc := LoadObject(sys, disk, index);
    && doc.Some? && TellsHeader(sys, disk, index, doc.value, dir, latest)
    && Get(doc.value, "entries").List? && TellsEntries(sys, disk, dir, Get(doc.value, "entries").items, runs)
    && (forall i, j :: 0 <= i < j < |runs| ==> runs[i].path != runs[j].path && LexLe(runs[i].created, runs[j].created))
  }

  lemma HonestMode(run: Run, steps: Value)
    requires steps == List(Strings(run.steps)) && (run.induced.Some? ==> run.induced.value in run.steps)
    ensures StringList(steps)
    ensures ModeAllowed(Str(if run.induced.None? then "default" else "induced_failure:" + run.induced.value), steps)
  {
    if run.induced.Some? {
      var i :| 0 <= i < |run.steps| && run.steps[i] == run.induced.value;
      var mode := "induced_failure:" + run.induced.value;
      assert INDUCED <= mode && mode[|INDUCED|..] == run.induced.value;
      assert steps.items[i] == Str(mode[|INDUCED|..]);
    }
  }

  lemma HonestEntryIsAccepted(sys: System, disk: Disk, dir: string, entry: Value, run: Run)
    requires TellsEntry(sys, disk, dir, entry, run)
    ensures EntryAccepted(sys, disk, Some(sys.rooted(dir)), entry)
    ensures PathOf(entry) == run.path && CreatedAt(entry) == run.created
  {
    var summary := LoadObject(sys, disk, sys.rooted(run.path)).value;
    HonestMode(run, Get(summary, "ordered_steps"));
  }

  /** An archive that tells its runs as they were is accepted, those that failed included. */
  lemma HonestIndexIsAccepted(sys: System, disk: Disk, index: Path, dir: string, latest: string, runs: seq<Run>)
    requires HonestIndex(sys, disk, index, dir, latest, runs)
    ensures IndexAccepted(sys, disk, index)
  {
    var entries := Get(LoadObject(sys, disk, index).value, "entries").items;
    forall i | 0 <= i < |entries|
      ensures EntryAccepted(sys, disk, Some(sys.rooted(dir)), entries[i])
      ensures PathOf(entries[i]) == runs[i].path && CreatedAt(entries[i]) == runs[i].created
    {
      HonestEntryIsAccepted(sys, disk, dir, entries[i], runs[i]);
    }
  }

  /** The run that an accepted entry and its summary tell. */
  function RunOf(sys: System, disk: Disk, entry: Value): Run
    requires entry.Dict? && LoadObject(sys, disk, sys.rooted(PathOf(entry))).Some?
  {
    var summary, mode := LoadObject(sys, disk, sys.rooted(PathOf(entry))).value, Get(entry.fields, "command_mode");
    Run(PathOf(entry), CreatedAt(entry),
        if mode != Str("default") && mode.Str? && |mode.s| >= 16 then Some(mode.s[16..]) else None,
        Texts(Get(summary, "ordered_steps")),
        if Get(summary, "failing_steps").List? then Get(summary, "failing_steps").items else [])
  }

  function Texts(v: Value): seq<string> {
    if v.List? then seq(|v.items|, i requires 0 <= i < |v.items| => if v.items[i].Str? then v.items[i].s else "") else []
  }

  lemma TextsAreStrings(v: Value)
    requires StringList(v)
    ensures v == List(Strings(Texts(v)))
  {
    assert v.items == Strings(Texts(v));
  }

  lemma ModeTells(mode: Value, steps: Value)
    requires StringList(steps) && ModeAllowed(mode, steps) && mode != Str("default")
    ensures |mode.s| >= 16 && mode == Str("induced_failure:" + mode.s[16..]) && mode.s[16..] in Texts(steps)
  {
    assert |INDUCED| == 16;
    assert mode.s == mode.s[..16] + mode.s[16..];
    var i :| 0 <= i < |steps.items| && steps.items[i] == Str(mode.s[16..]);
    assert Texts(steps)[i] == mode.s[16..];
  }

  lemma AcceptedEntryTells(sys: System, disk: Disk, dir: string, entry: Value)
    requires EntryAccepted(sys, disk, Some(sys.rooted(dir)), entry)
    ensures TellsEntry(sys, disk, dir, entry, RunOf(sys, disk, entry))
  {
    var summary := LoadObject(sys, disk, sys.rooted(PathOf(entry))).value;
    var steps, mode := Get(summary, "ordered_steps"), Get(entry.fields, "command_mode");
    TextsAreStrings(steps);
    if mode != Str("default") {
      ModeTells(mode, steps);
    }
    DecisionTells(summary, RunOf(sys, disk, entry).failing);
    assert TellsSummary(summary, RunOf(sys, disk, entry));
  }

  lemma DecisionTells(summary: Fields, failing: seq<Value>)
    requires DecisionFollows(summary) && Get(summary, "failing_steps") == List(failing)
    ensures Get(summary, "final_decision") == Str(if failing == [] then "GO" else "NO_GO")
    ensures Get(summary, "summary_exit_code") == Num(if failing == [] then 0.0 else 1.0)
  {
  }

  function RunsOf(sys: System, disk: Disk, entries: seq<Value>): (r: seq<Run>)
    requires forall i :: 0 <= i < |entries| ==> entries[i].Dict? && LoadObject(sys, disk, sys.rooted(PathOf(entries[i]))).Some?
    ensures |r| == |entries|
  {
    seq(|entries|, i requires 0 <= i < |entries| => RunOf(sys, disk, entries[i]))
  }

  lemma AcceptedEntriesTell(sys: System, disk: Disk, dir: string, entries: seq<Value>) returns (runs: seq<Run>)
    requires EntriesAccepted(sys, disk, Some(sys.rooted(dir)), entries)
    ensures TellsEntries(sys, disk, dir, entries, runs)
    ensures forall i, j :: 0 <= i < j < |runs| ==> runs[i].path != runs[j].path && LexLe(runs[i].created, runs[j].created)
  {
    forall i | 0 <= i < |entries|
      ensures entries[i].Dict? && LoadObject(sys, disk, sys.rooted(PathOf(entries[i]))).Some?
    {
      assert EntryAccepted(sys, disk, Some(sys.rooted(dir)), entries[i]);
    }
    runs := RunsOf(sys, disk, entries);
    forall i | 0 <= i < |entries|
      ensures TellsEntry(sys, disk, dir, entries[i], runs[i])
      ensures runs[i].path == PathOf(entries[i]) && runs[i].created == CreatedAt(entries[i])
    {
      AcceptedEntryTells(sys, disk, dir, entries[i]);
    }
  }

  /** An index is accepted exactly if it tells some list of runs as they were, each once and in order: nothing false
      is accepted, and nothing true is rejected. */
  lemma AcceptedExactlyIfHonest(sys: System, disk: Disk, index: Path)
    ensures IndexAccepted(sys, disk, index) <==> exists dir, latest, runs :: HonestIndex(sys, disk, index, dir, latest, runs)
  {
    if IndexAccepted(sys, disk, index) {
      var fields := LoadObject(sys, disk, index).value;
      var dir, latest := Get(fields, "archive_dir").s, Get(fields, "latest_summary_path").s;
      var runs := AcceptedEntriesTell(sys, disk, dir, Get(fields, "entries").items);
      assert HonestIndex(sys, disk, index, dir, latest, runs);
    }
    forall dir, latest, runs | HonestIndex(sys, disk, index, dir, latest, runs)
      ensures IndexAccepted(sys, disk, index)
    {
      HonestIndexIsAccepted(sys, disk, index, dir, latest, runs);
    }
  }

  method VerifyArchiveIndex(sys: System, disk: Disk, index: Path) returns (errors: seq<Issue>)
    ensures errors == [] <==> IndexAccepted(sys, disk, index)
    ensures errors == [] <==> exists dir, latest, runs :: HonestIndex(sys, disk, index, dir, latest, runs)
  {
    AcceptedExactlyIfHonest(sys, disk, index);
    if index !in disk {
      return [IndexMissing];
    }
    var doc := LoadObject(sys, disk, index);
    if doc.None? {
      return [IndexUnreadable];
    }
    errors := HeaderIssues(sys, disk, index, doc.value);
    var entries := Get(doc.value, "entries");
    if !entries.List? {
      errors := errors + [EntriesNotAList];
      return;
    }
    var more := EntryLoop(sys, disk, ArchiveDir(sys, doc.value), entries.items);
    errors := errors + more;
  }

  /** In an index without errors an entry is GO exactly when its exit code is 0 and nothing failed. */
  lemma GoMeansClean(sys: System, disk: Disk, index: Path, i: nat)
    requires IndexAccepted(sys, disk, index)
    requires i < |Get(LoadObject(sys, disk, index).value, "entries").items|
    ensures var entry := Get(LoadObject(sys, disk, index).value, "entries").items[i];
            && entry.Dict?
            && var decision, exitCode, failing := Get(entry.fields, "final_decision"),
                                                  Get(entry.fields, "summary_exit_code"),
                                                  Get(entry.fields, "failing_steps");
            && IsDecision(decision)
            && (decision == Str("GO") <==> exitCode == Num(0.0) && failing == List([]))
  {
    var fields := LoadObject(sys, disk, index).value;
    var entry := Get(fields, "entries").items[i];
    assert EntryAccepted(sys, disk, ArchiveDir(sys, fields), entry);
    var summary := LoadObject(sys, disk, sys.rooted(PathOf(entry))).value;
    Clean(entry.fields, summary, PathOf(entry));
  }

  lemma Clean(entry: Fields, summary: Fields, path: string)
    requires SummaryAccepted(entry, summary, path)
    ensures var decision, exitCode, failing := Get(entry, "final_decision"), Get(entry, "summary_exit_code"),
                                               Get(entry, "failing_steps");
            && IsDecision(decision)
            && (decision == Str("GO") <==> exitCode == Num(0.0) && failing == List([]))
  {
    assert "GO" != "NO_GO" by {
      assert |"GO"| == 2 && |"NO_GO"| == 5;
    }
  }
}
