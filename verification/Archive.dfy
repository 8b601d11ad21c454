/** The checksum job of archive maintenance over repeated runs: the manifest of recorded checksums is
    rewritten only by a run without errors, while anything may happen to the archive between runs. */
module Archive {
  import opened Text
  import opened Values
  import opened Wrappers
  import opened ArchiveIndex

  // ---------- a job and its status ----------

  datatype Status = Pass | Warn | Fail | Skipped

  /** What a job's operation came to: an exception, or a payload whose parts may be missing. */
  datatype Payload<E> = Raised | Payload(status: Option<Status>, warnings: seq<E>, errors: seq<E>)

  function RunJob<E>(p: Payload<E>): (status: Status)
    ensures status == Pass <==> p.Payload? && p.errors == [] && p.warnings == [] && p.status in {None, Some(Pass)}
    ensures status == Fail <==> p.Raised? || p.errors != [] || p.status == Some(Fail)
    ensures status == Warn <==>
            && p.Payload? && p.errors == []
            && (p.status == Some(Warn) || (p.status in {None, Some(Pass)} && p.warnings != []))
  {
    if p.Raised? || p.errors != [] then Fail
    else
      var status := if p.status.Some? then p.status.value else Pass;
      if status == Pass && p.warnings != [] then Warn else status
  }

  // ---------- the archive's files ----------

  datatype Error =
    | Unverified(issue: Issue)
    | IndexUnparsed | NoLatestSummary | NoEntries | BadEntry | NoEntryPath | Outside
    | FileMissing | ManifestInvalid | ManifestUnreadable | Forgotten(path: Path) | Mismatch(path: Path)

  predicate Given(v: Value) {
    v.Str? && Strip(v.s) != ""
  }

  /** A path named by the index, when it may be covered. */
  predicate Covered(sys: System, index: Path, v: Value) {
    Given(v) && sys.within(sys.located(v.s), sys.allowedRoot(index))
  }

  function ArtifactOf(entry: Value): Value {
    if entry.Dict? then Get(entry.fields, "archive_artifact_path") else Other
  }

  function EntryPaths(sys: System, index: Path, entries: seq<Value>): set<Path> {
    set i | 0 <= i < |entries| && Covered(sys, index, ArtifactOf(entries[i]))
      :: sys.located(ArtifactOf(entries[i]).s)
  }

  predicate EntriesCovered(sys: System, index: Path, entries: seq<Value>) {
    forall i :: 0 <= i < |entries| ==> Covered(sys, index, ArtifactOf(entries[i]))
  }

  function NamedPaths(sys: System, index: Path, doc: Fields): set<Path> {
    var latest, entries := Get(doc, "latest_summary_path"), Get(doc, "entries");
    (if Covered(sys, index, latest) then {sys.located(latest.s)} else {})
    + (if entries.List? then EntryPaths(sys, index, entries.items) else {})
  }

  /** The files the manifest has to cover: the index itself and everything it names. */
  function ArchivePaths(sys: System, disk: Disk, index: Path): set<Path> {
    var doc := LoadObject(sys, disk, index);
    {index} + if doc.Some? then NamedPaths(sys, index, doc.value) else {}
  }

  predicate Collected(sys: System, disk: Disk, index: Path) {
    var doc := LoadObject(sys, disk, index);
    && doc.Some?
    && Covered(sys, index, Get(doc.value, "latest_summary_path"))
    && Get(doc.value, "entries").List?
    && EntriesCovered(sys, index, Get(doc.value, "entries").items)
  }

  lemma OneMorePath(sys: System, index: Path, entries: seq<Value>, i: nat)
    requires i < |entries|
    ensures var before, after, v := entries[..i], entries[..i + 1], ArtifactOf(entries[i]);
            && (EntriesCovered(sys, index, after) <==> EntriesCovered(sys, index, before) && Covered(sys, index, v))
            && EntryPaths(sys, index, after)
            == EntryPaths(sys, index, before) + if Covered(sys, index, v) then {sys.located(v.s)} else {}
  {
    var before, after := entries[..i], entries[..i + 1];
    assert after[i] == entries[i] && forall k :: 0 <= k < i ==> after[k] == before[k];
    if EntriesCovered(sys, index, after) {
      forall k | 0 <= k < i
        ensures Covered(sys, index, ArtifactOf(before[k]))
      {
        assert Covered(sys, index, ArtifactOf(after[k]));
      }
    }
  }

  method CollectEntries(sys: System, index: Path, entries: seq<Value>) returns (paths: set<Path>, errors: seq<Error>)
    ensures paths == EntryPaths(sys, index, entries)
    ensures errors == [] <==> EntriesCovered(sys, index, entries)
  {
    paths, errors := {}, [];
    for i := 0 to |entries|
      invariant paths == EntryPaths(sys, index, entries[..i])
      invariant errors == [] <==> EntriesCovered(sys, index, entries[..i])
    {
      OneMorePath(sys, index, entries, i);
      var artifact := ArtifactOf(entries[i]);
      if !entries[i].Dict? {
        errors := errors + [BadEntry];
        continue;
      }
      if !Given(artifact) {
        errors := errors + [NoEntryPath];
        continue;
      }
      if !sys.within(sys.located(artifact.s), sys.allowedRoot(index)) {
        errors := errors + [Outside];
        continue;
      }
      paths := paths + {sys.located(artifact.s)};
    }
    assert entries[..|entries|] == entries;
  }

  method CollectArchivePaths(sys: System, disk: Disk, index: Path) returns (paths: set<Path>, errors: seq<Error>)
    ensures paths == ArchivePaths(sys, disk, index)
    ensures errors == [] <==> Collected(sys, disk, index)
  {
    paths, errors := {index}, [];
    var doc := LoadObject(sys, disk, index);
    if doc.None? {
      errors := [IndexUnparsed];
      return;
    }
    var latest := Get(doc.value, "latest_summary_path");
    if Given(latest) {
      if sys.within(sys.located(latest.s), sys.allowedRoot(index)) {
        paths := paths + {sys.located(latest.s)};
      } else {
        errors := errors + [Outside];
      }
    } else {
      errors := errors + [NoLatestSummary];
    }
    var entries := Get(doc.value, "entries");
    if !entries.List? {
      errors := errors + [NoEntries];
      return;
    }
    var more, entryErrors := CollectEntries(sys, index, entries.items);
    paths, errors := paths + more, errors + entryErrors;
  }

  // ---------- checksums ----------

  function Checksums(sys: System, disk: Disk, paths: set<Path>): map<Path, string> {
    map p | p in paths && p in disk && disk[p].File? :: sys.hash(disk[p].bytes)
  }

  predicate Readable(disk: Disk, paths: set<Path>) {
    forall p :: p in paths ==> p in disk && disk[p].File?
  }

  /** `raised`: a directory stands where a file should, and reading it fails the whole job. */
  method HashFiles(sys: System, disk: Disk, paths: set<Path>)
    returns (checksums: map<Path, string>, errors: seq<Error>, raised: bool)
    ensures !raised ==> checksums == Checksums(sys, disk, paths)
    ensures !raised && errors == [] <==> Readable(disk, paths)
  {
    checksums, errors, raised := map[], [], false;
    var rest := paths;
    while rest != {}
      invariant rest <= paths
      invariant checksums == Checksums(sys, disk, paths - rest)
      invariant errors == [] <==> Readable(disk, paths - rest)
      decreases rest
    {
      var p :| p in rest;
      assert paths - (rest - {p}) == (paths - rest) + {p};
      rest := rest - {p};
      if p !in disk {
        errors := errors + [FileMissing];
        continue;
      }
      if disk[p].Directory? {
        raised := true;
        assert p in paths;
        return;
      }
      checksums := checksums[p := sys.hash(disk[p].bytes)];
    }
    assert paths - rest == paths;
  }

  // ---------- the manifest ----------

  datatype Manifest = Absent | Unreadable | Document(checksums: Value)

  /** The checksums a manifest records; other values are passed over. */
  function Recorded(m: Manifest): map<Path, string> {
    if m.Document? && m.checksums.Dict?
    then map k | k in m.checksums.fields && m.checksums.fields[k].Str? :: m.checksums.fields[k].s
    else map[]
  }

  predicate SubMap(a: map<Path, string>, b: map<Path, string>) {
    forall k :: k in a ==> k in b && b[k] == a[k]
  }

  /** Everything recorded before is still there with the same checksum, or nothing was recorded. */
  predicate Kept(m: Manifest, checksums: map<Path, string>) {
    m.Absent? || (m.Document? && m.checksums.Dict? && SubMap(Recorded(m), checksums))
  }

  function Written(checksums: map<Path, string>): Manifest {
    Document(Dict(map k | k in checksums :: Str(checksums[k])))
  }

  method CompareManifest(m: Manifest, checksums: map<Path, string>) returns (errors: seq<Error>)
    ensures errors == [] <==> Kept(m, checksums)
  {
    match m {
      case Absent => return [];
      case Unreadable => return [ManifestUnreadable];
      case Document(previous) =>
        if !previous.Dict? {
          return [ManifestInvalid];
        }
        errors := CompareChecksums(previous.fields, checksums);
        assert forall k :: k in Recorded(m) <==> k in previous.fields && previous.fields[k].Str?;
    }
  }

  predicate StillHolds(previous: Fields, k: string, checksums: map<Path, string>)
    requires k in previous
  {
    previous[k].Str? ==> k in checksums && checksums[k] == previous[k].s
  }

  method CompareChecksums(previous: Fields, checksums: map<Path, string>) returns (errors: seq<Error>)
    ensures errors == [] <==> forall k :: k in previous ==> StillHolds(previous, k, checksums)
  {
    errors := [];
    var rest := previous.Keys;
    while rest != {}
      invariant rest <= previous.Keys
      invariant errors == [] <==> forall k :: k in previous && k !in rest ==> StillHolds(previous, k, checksums)
      decreases rest
    {
      var k :| k in rest;
      rest := rest - {k};
      if !previous[k].Str? {
        continue;
      }
      if k !in checksums {
        errors := errors + [Forgotten(k)];
        continue;
      }
      if checksums[k] != previous[k].s {
        errors := errors + [Mismatch(k)];
      }
    }
  }

  // ---------- one run ----------

  function Current(sys: System, disk: Disk, index: Path): map<Path, string> {
    Checksums(sys, disk, ArchivePaths(sys, disk, index))
  }

  predicate Passes(sys: System, disk: Disk, index: Path, m: Manifest) {
    && IndexAccepted(sys, disk, index)
    && Collected(sys, disk, index)
    && Readable(disk, ArchivePaths(sys, disk, index))
    && Kept(m, Current(sys, disk, index))
  }

  function AfterRun(sys: System, disk: Disk, index: Path, m: Manifest): Manifest {
    if Passes(sys, disk, index, m) then Written(Current(sys, disk, index)) else m
  }

  /** The manifest file, kept from run to run. */
  class ManifestFile {
    var manifest: Manifest

    constructor (m: Manifest)
      ensures manifest == m
    {
      manifest := m;
    }

    method VerifyArchiveChecksums(sys: System, disk: Disk, index: Path) returns (result: Payload<Error>)
      modifies this
      ensures manifest == AfterRun(sys, disk, index, old(manifest))
      ensures RunJob(result) == Pass <==> Passes(sys, disk, index, old(manifest))
      ensures RunJob(result) == Skipped <==> index !in disk
      ensures RunJob(result) != Warn
    {
      if index !in disk {
        return Payload(Some(Skipped), [], []);
      }
      var issues := VerifyArchiveIndex(sys, disk, index);
      var errors := seq(|issues|, i requires 0 <= i < |issues| => Unverified(issues[i]));
      var paths, collectionErrors := CollectArchivePaths(sys, disk, index);
      var checksums, fileErrors, raised := HashFiles(sys, disk, paths);
      if raised {
        return Raised;
      }
      var manifestErrors := CompareManifest(manifest, checksums);
      errors := errors + collectionErrors + fileErrors + manifestErrors;
      if errors == [] {
        manifest := Written(checksums);
      }
      return Payload(Some(if errors == [] then Pass else Fail), [], errors);
    }
  }

  // ---------- what a passing run leaves ----------

  lemma WrittenIsRecorded(checksums: map<Path, string>)
    ensures Recorded(Written(checksums)) == checksums
  {
  }

  /** A passing run records a checksum for exactly the archive's files, among them the index itself, and keeps
      what was recorded before; any other run leaves the manifest as it was. */
  lemma RunKeepsRecords(sys: System, disk: Disk, index: Path, m: Manifest)
    ensures SubMap(Recorded(m), Recorded(AfterRun(sys, disk, index, m)))
    ensures Passes(sys, disk, index, m) ==>
              && Recorded(AfterRun(sys, disk, index, m)).Keys == ArchivePaths(sys, disk, index)
              && forall p :: p in ArchivePaths(sys, disk, index) ==>
                   && p in disk && disk[p].File?
                   && Recorded(AfterRun(sys, disk, index, m))[p] == sys.hash(disk[p].bytes)
    ensures !Passes(sys, disk, index, m) ==> AfterRun(sys, disk, index, m) == m
  {
    WrittenIsRecorded(Current(sys, disk, index));
  }

  /** Every artifact the index lists, and its latest summary, are among the recorded files. */
  lemma EverythingListedIsRecorded(sys: System, disk: Disk, index: Path, m: Manifest, i: nat)
    requires Passes(sys, disk, index, m)
    requires i < |Get(LoadObject(sys, disk, index).value, "entries").items|
    ensures var doc, kept := LoadObject(sys, disk, index).value, Recorded(AfterRun(sys, disk, index, m));
            var latest, artifact := Get(doc, "latest_summary_path"), ArtifactOf(Get(doc, "entries").items[i]);
            && artifact.Str? && sys.located(artifact.s) in kept
            && latest.Str? && sys.located(latest.s) in kept
  {
    RunKeepsRecords(sys, disk, index, m);
    var entries := Get(LoadObject(sys, disk, index).value, "entries").items;
    assert Covered(sys, index, ArtifactOf(entries[i]));
    assert sys.located(ArtifactOf(entries[i]).s) in EntryPaths(sys, index, entries);
  }

  /** An honest archive whose summaries all lie where the manifest may cover them. */
  predicate HonestArchive(sys: System, disk: Disk, index: Path, dir: string, latest: string, runs: seq<Run>) {
    && HonestIndex(sys, disk, index, dir, latest, runs)
    && Coverable(sys, disk, index, latest)
    && forall i :: 0 <= i < |runs| ==> Coverable(sys, disk, index, runs[i].path)
  }

  predicate Coverable(sys: System, disk: Disk, index: Path, path: string) {
    && Strip(path) != "" && sys.within(sys.located(path), sys.allowedRoot(index))
    && sys.located(path) in disk && disk[sys.located(path)].File?
  }

  lemma HonestArchiveIsCollected(sys: System, disk: Disk, index: Path, dir: string, latest: string, runs: seq<Run>)
    requires HonestArchive(sys, disk, index, dir, latest, runs)
    ensures Collected(sys, disk, index) && Readable(disk, ArchivePaths(sys, disk, index))
  {
    var doc := LoadObject(sys, disk, index).value;
    var entries := Get(doc, "entries").items;
    forall i | 0 <= i < |entries|
      ensures Covered(sys, index, ArtifactOf(entries[i])) && ArtifactOf(entries[i]) == Str(runs[i].path)
    {
      assert TellsEntry(sys, disk, dir, entries[i], runs[i]) && Coverable(sys, disk, index, runs[i].path);
    }
    forall p | p in EntryPaths(sys, index, entries)
      ensures p in disk && disk[p].File?
    {
      var i :| 0 <= i < |entries| && p == sys.located(ArtifactOf(entries[i]).s);
      assert Coverable(sys, disk, index, runs[i].path);
    }
  }

  /** The first run over an honest archive passes. */
  lemma HonestArchivePasses(sys: System, disk: Disk, index: Path, dir: string, latest: string, runs: seq<Run>)
    requires HonestArchive(sys, disk, index, dir, latest, runs)
    ensures Passes(sys, disk, index, Absent)
  {
    HonestIndexIsAccepted(sys, disk, index, dir, latest, runs);
    HonestArchiveIsCollected(sys, disk, index, dir, latest, runs);
  }

  /** A run over an archive that has not changed since a passing one passes, and leaves the manifest as it is. */
  lemma UnchangedArchivePassesAgain(sys: System, disk: Disk, index: Path, m: Manifest)
    requires Passes(sys, disk, index, m)
    ensures var after := AfterRun(sys, disk, index, m);
            Passes(sys, disk, index, after) && AfterRun(sys, disk, index, after) == after
  {
    WrittenIsRecorded(Current(sys, disk, index));
  }

  // ---------- repeated runs ----------

  /** The manifest after runs over these states of the disk, between which anything may have been changed. */
  function History(sys: System, index: Path, m: Manifest, disks: seq<Disk>): Manifest {
    if |disks| == 0 then m
    else AfterRun(sys, disks[|disks| - 1], index, History(sys, index, m, disks[..|disks| - 1]))
  }

  predicate PassesAt(sys: System, index: Path, m: Manifest, disks: seq<Disk>, i: nat)
    requires i < |disks|
  {
    Passes(sys, disks[i], index, History(sys, index, m, disks[..i]))
  }

  lemma HistoryStep(sys: System, index: Path, m: Manifest, disks: seq<Disk>, j: nat)
    requires 0 < j <= |disks|
    ensures History(sys, index, m, disks[..j])
         == AfterRun(sys, disks[j - 1], index, History(sys, index, m, disks[..j - 1]))
  {
    assert disks[..j][..j - 1] == disks[..j - 1];
  }

  /** No recorded checksum is ever changed or dropped. */
  lemma {:induction false} RecordsOnlyGrow(sys: System, index: Path, m: Manifest, disks: seq<Disk>, i: nat, j: nat)
    requires i <= j <= |disks|
    ensures SubMap(Recorded(History(sys, index, m, disks[..i])), Recorded(History(sys, index, m, disks[..j])))
    decreases j
  {
    if i < j {
      RecordsOnlyGrow(sys, index, m, disks, i, j - 1);
      HistoryStep(sys, index, m, disks, j);
      RunKeepsRecords(sys, disks[j - 1], index, History(sys, index, m, disks[..j - 1]));
    }
  }

  /** A run passes exactly if a first one would and the manifest, if there is one, can be read and every checksum it
      records is that of the same file now. */
  lemma PassesAgainst(sys: System, disk: Disk, index: Path, m: Manifest)
    ensures Passes(sys, disk, index, m) <==>
            && Passes(sys, disk, index, Absent)
            && (m == Absent
                || (m.Document? && m.checksums.Dict?
                    && forall k :: k in m.checksums.fields && m.checksums.fields[k].Str? ==>
                         k in Current(sys, disk, index) && Current(sys, disk, index)[k] == m.checksums.fields[k].s))
  {
    if m.Document? && m.checksums.Dict? {
      assert forall k :: k in Recorded(m) <==> k in m.checksums.fields && m.checksums.fields[k].Str?;
    }
  }

  /** A manifest that cannot be read stays as it is over all runs, and none of them passes. */
  lemma {:induction false} BrokenManifestStays(sys: System, index: Path, m: Manifest, disks: seq<Disk>, j: nat)
    requires m.Unreadable? || (m.Document? && !m.checksums.Dict?)
    requires j <= |disks|
    ensures History(sys, index, m, disks[..j]) == m
    ensures j < |disks| ==> !PassesAt(sys, index, m, disks, j)
  {
    if j > 0 {
      BrokenManifestStays(sys, index, m, disks, j - 1);
      HistoryStep(sys, index, m, disks, j);
    }
    if j < |disks| {
      PassesAgainst(sys, disks[j], index, m);
    }
  }

  ghost predicate CollisionFree(sys: System) {
    forall a, b :: sys.hash(a) == sys.hash(b) ==> a == b
  }

  /** Since the index records itself, a disk that passes against a manifest left by a passing run holds the
      same index, hence the same list of files, with the same contents. */
  lemma SamePass(sys: System, index: Path, first: Disk, later: Disk, m: Manifest)
    requires CollisionFree(sys)
    requires Passes(sys, first, index, m)
    requires Passes(sys, later, index, Written(Current(sys, first, index)))
    ensures Current(sys, later, index) == Current(sys, first, index)
    ensures ArchivePaths(sys, later, index) == ArchivePaths(sys, first, index)
    ensures forall p :: p in ArchivePaths(sys, first, index) ==> p in first && p in later && later[p] == first[p]
  {
    var a, b := Current(sys, first, index), Current(sys, later, index);
    WrittenIsRecorded(a);
    assert index in ArchivePaths(sys, first, index) && index in a;
    assert b[index] == a[index];
    assert LoadObject(sys, later, index) == LoadObject(sys, first, index);
    assert ArchivePaths(sys, later, index) == ArchivePaths(sys, first, index);
    forall p | p in ArchivePaths(sys, first, index)
      ensures p in first && p in later && later[p] == first[p]
    {
      assert b[p] == a[p];
    }
  }

  lemma LaterRunChangesNothing(sys: System, index: Path, first: Disk, later: Disk, m: Manifest)
    requires CollisionFree(sys) && Passes(sys, first, index, m)
    ensures AfterRun(sys, later, index, Written(Current(sys, first, index))) == Written(Current(sys, first, index))
  {
    if Passes(sys, later, index, Written(Current(sys, first, index))) {
      SamePass(sys, index, first, later, m);
    }
  }

  ghost predicate Fixed(sys: System, index: Path, m: Manifest) {
    forall disk :: AfterRun(sys, disk, index, m) == m
  }

  lemma {:induction false} FixedStays(sys: System, index: Path, m: Manifest, disks: seq<Disk>, i: nat, j: nat)
    requires i <= j <= |disks| && Fixed(sys, index, History(sys, index, m, disks[..i]))
    ensures History(sys, index, m, disks[..j]) == History(sys, index, m, disks[..i])
    decreases j
  {
    if i < j {
      FixedStays(sys, index, m, disks, i, j - 1);
      HistoryStep(sys, index, m, disks, j);
    }
  }

  lemma PassFixes(sys: System, index: Path, first: Disk, m: Manifest)
    requires CollisionFree(sys) && Passes(sys, first, index, m)
    ensures Fixed(sys, index, Written(Current(sys, first, index)))
  {
    var w := Written(Current(sys, first, index));
    forall disk
      ensures AfterRun(sys, disk, index, w) == w
    {
      LaterRunChangesNothing(sys, index, first, disk, m);
    }
  }

  /** Under a collision-free hash the first passing run fixes the manifest for good, ... */
  lemma FirstPassIsFinal(sys: System, index: Path, m: Manifest, disks: seq<Disk>, i: nat, j: nat)
    requires CollisionFree(sys) && i < j <= |disks| && PassesAt(sys, index, m, disks, i)
    ensures History(sys, index, m, disks[..j]) == Written(Current(sys, disks[i], index))
  {
    HistoryStep(sys, index, m, disks, i + 1);
    PassFixes(sys, index, disks[i], History(sys, index, m, disks[..i]));
    FixedStays(sys, index, m, disks, i + 1, j);
  }

  /** ... so every later run fails or finds the same files with the same contents: all passing runs have one
      checksum map. */
  lemma PassingRunsAgree(sys: System, index: Path, m: Manifest, disks: seq<Disk>, i: nat, j: nat)
    requires CollisionFree(sys) && i < j < |disks|
    requires PassesAt(sys, index, m, disks, i) && PassesAt(sys, index, m, disks, j)
    ensures Current(sys, disks[j], index) == Current(sys, disks[i], index)
    ensures forall p :: p in ArchivePaths(sys, disks[i], index) ==>
              p in disks[i] && p in disks[j] && disks[j][p] == disks[i][p]
  {
    FirstPassIsFinal(sys, index, m, disks, i, j);
    SamePass(sys, index, disks[i], disks[j], History(sys, index, m, disks[..i]));
  }
}
