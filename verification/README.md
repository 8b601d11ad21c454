# Alice: a verified model of the evaluation harness and the operations scripts

This project models, in Dafny, the decision logic of Alice's LongMemEval harness (excerpt packing, checkpoint and
resume, report aggregation, the paired comparison of runs) and of four operations scripts (the semantic-report
validator, archive maintenance, the carrier snapshot, the Caddyfile check), and proves what that logic guarantees.

Each algorithm the scripts write as loops over changing variables is a method with the same loop, proved equal to a
specification function or to the predicate it decides; the properties are lemmas about those functions, predicates
and whole sequences of steps. `dafny verify dfyconfig.toml` checks everything.

| file | what it models |
|---|---|
| `Text.dfy`, `Lists.dfy`, `Ids.dfy`, `Values.dfy`, `Wrappers.dfy` | Python's `split`, `join`, `strip`, `str`, string order and stable sort; permutations; id lists; decoded JSON values |
| `Anchor.dfy`, `AnchorWindow.dfy` | the query-anchored excerpt window and its two continuations; what they are |
| `Packer.dfy`, `PackerBudget.dfy`, `PackerGrown.dfy`, `PackerLines.dfy`, `PackerShown.dfy` | the three-phase excerpt packer; budget and admission; which continuations are applied; which lines are shown; what is not shown and why |
| `Scenarios.dfy` | small retrieval results worked out completely, for the claims that fail |
| `Prose.dfy`, `JsonPack.dfy`, `JsonReader.dfy` | the two renderers, their cost functions and length bounds; reading the JSON document back |
| `Mcnemar.dfy`, `CompareRuns.dfy` | the exact McNemar test; the paired comparison of two result files |
| `Checkpoint.dfy`, `Aggregate.dfy` | the append-only checkpoint over whole histories of runs and crashes; the report's numbers |
| `SemanticReport.dfy` | acceptance of the `retrieval_quality` suite of a release report |
| `ArchiveIndex.dfy`, `Archive.dfy`, `Reembed.dfy` | the archive index verifier, the checksum job over repeated runs, the re-embedding job |
| `Carrier.dfy`, `Caddy.dfy` | the length-prefixed carrier stream; the brace-depth site splitter and its mTLS check |

What the regular expressions and the case folding say about a line is a parameter (`Anchor.Query`): a score, an
enumeration signal and match positions, as arbitrary functions. The cost of an entry is a parameter of the packer.
File contents, JSON parsing, hashes and path resolution are parameters of the archive model (`ArchiveIndex.System`).

## Where the code differs from its comments

- `eval/longmemeval/adapter.py:508-510` and `:1059-1062` say anchoring leaves pass-1 admission identical. It does not.
  For every cost function `PackerBudget.AdmissionUnchanged` says exactly when it does: no source is moved to the other
  side of the budget by what anchoring has saved, or added, up to it. In prose an anchored entry costs at most what it
  replaces, so only turned-away sources matter (`Prose.ProseAdmissionUnchanged`), and `Prose.AdmissionCanChange` gives
  two sessions for which anchoring admits the second and the baseline does not.
- "Costs no more than the chunk it replaces" (`eval/longmemeval/adapter.py:474`) holds for prose. As JSON it holds if and
  only if the escaped text and the printed ordinal are together no longer (`JsonPack.JsonOfferCostsNoMore`); a shorter
  window with many quotation marks costs more, and can then cost a session its place
  (`JsonPack.AnchoringCanCostMoreAsJson`).
- The prose heading of the excerpts and the blank line before it are charged to nobody
  (`eval/longmemeval/adapter.py:960-963`), so the block is bounded by budget + 37 (`Prose.BlockIsBounded`), and a source
  of one chunk reaches it (`Prose.BudgetOverrun`). The JSON document is bounded by the budget itself, so the remark
  that prose operates under the same regime (`eval/longmemeval/adapter.py:1160-1161`) is not right.
- The fingerprint of a run does not cover `--limit`. A resumed run reports exactly the questions it was asked for if
  and only if every question done in the checkpoint is among them (`Checkpoint.ReportCoversQuestions`);
  `Checkpoint.LimitedRunReportsBoth` is a history in which one is not.
- Records stay done only while appends are line-atomic. A write torn just before its newline fuses with the next one;
  `Checkpoint.TornAppendKeepsDone` says exactly when that loses a done question.
- The validator accepts a reciprocal rank of 1/6 to 1/10 for a target outside a list of fewer than five keys, which no
  ranking gives (`SemanticReport.ShortOffWindowIsAccepted`). Apart from that a case is accepted exactly if it reports
  some ranking of at most ten keys as it is (`SemanticReport.CaseAcceptedExactly`).
- Because the archive index records its own checksum, the first passing maintenance run freezes the archive: an index
  that lists a further entry can never pass against that manifest again (`Archive.FirstPassIsFinal`).

## Model

| member | source | states |
|---|---|---|
| Anchor.FlattenChunks | eval/longmemeval/adapter.py:513-518 | the loop builds the line stream: every line of every chunk, an empty seam line between chunks |
| AnchorWindow.BodyIsChunk | eval/longmemeval/adapter.py:513-518 | each chunk's text is recovered by joining its own run of the stream, and those lines carry its index |
| AnchorWindow.BodiesAreDisjoint | eval/longmemeval/adapter.py:513-518 | the runs of different chunks do not overlap |
| Anchor.BestIsFirstMaximal | eval/longmemeval/adapter.py:519-524 | the anchor is a line of maximal score, and every earlier line scores strictly less |
| Anchor.QueryAnchoredExcerpt | eval/longmemeval/adapter.py:481-603 | the imperative search, growth, trimming and both continuation walks return an excerpt exactly where anchoring fires, and that excerpt |
| Anchor.AnchoringFires | eval/longmemeval/adapter.py:511-538 | it fires exactly with at least two chunks, a first best line scoring at least 3, a numbered line at most three lines from it, a baseline longer with its ordinal than the anchor's ordinal, and something other than the baseline to show |
| AnchorWindow.AnchoredWindow | eval/longmemeval/adapter.py:539-565 | the window is a contiguous run containing the first best line; before trimming its joined length is the loop's `length`, at most the cap, neither neighbour fits, and growth was balanced; trimming removes only blank edge lines |
| AnchorWindow.OverlongWindow | eval/longmemeval/adapter.py:460-467 | an overlong line is cut to exactly `cap` characters, at the start nearest to centring the matches, and contains their midpoint; without a match it is cut behind its first `cap` characters |
| AnchorWindow.WindowFitsCap | eval/longmemeval/adapter.py:536-565 | the window text never exceeds the cap and has exactly its length when the anchor line is too long |
| AnchorWindow.ExcerptIsShorter | eval/longmemeval/adapter.py:534-538 | an anchored text and its printed ordinal are together no longer than the baseline's |
| AnchorWindow.DownwardIsMaximal | eval/longmemeval/adapter.py:566-576 | the downward continuation holds enumerated lines only, costs at most 1600, and the next line would break one of the two |
| AnchorWindow.UpwardIsMaximal | eval/longmemeval/adapter.py:581-592 | the same for the upward continuation |
| AnchorWindow.ContinuationsJoin | eval/longmemeval/adapter.py:1112-1119 | joining both continuations to the window with one newline each gives one contiguous run of the stream |
| Packer.CollectCandidates | eval/longmemeval/adapter.py:1036-1056 | the collection loop yields, per source with text, its entries best first and its chunks in session order |
| Packer.GuaranteePass | eval/longmemeval/adapter.py:1063-1105 | pass 1 over changing `selected`, `leftovers`, `pending` and `used` computes the specified admission |
| Packer.ExtensionPass | eval/longmemeval/adapter.py:1109-1129 | the in-place continuations, charged as cost differences, compute the specified extension phase |
| Packer.FillPass | eval/longmemeval/adapter.py:1134-1139 | the fill loop takes exactly the entries that still fit, in order |
| Packer.SelectExcerpts | eval/longmemeval/adapter.py:1013-1143 | all phases together compute `Select`, for every query, retrieval result, cost function, budget and initial charge |
| PackerBudget.AccountingIsExact | eval/longmemeval/adapter.py:1063-1139 | the final `used` is the initial charge plus the costs of the final entries, and never exceeds a budget it started within |
| PackerBudget.OverspentSelectsNothing | eval/longmemeval/adapter.py:1077-1137 | with positive costs nothing is selected when the charge starts above the budget |
| PackerBudget.FillIsGreedy | eval/longmemeval/adapter.py:1133-1139 | each entry of the fill order is taken next, or overflows on top of its predecessors and therefore still at the end |
| PackerBudget.FillOrder | eval/longmemeval/adapter.py:1132-1133 | the fill goes by falling score, then source rank, then chunk index |
| PackerBudget.OldestFirst | eval/longmemeval/adapter.py:1141-1143 | the result is the selected entries, none lost or added, by session date, then source rank, then chunk index |
| PackerBudget.NothingElseFits | eval/longmemeval/adapter.py:1063-1139 | at the end every chunk of every source is selected, marked as covered, or would overflow the budget |
| PackerShown.UnshownOverflows | eval/longmemeval/adapter.py:1063-1139 | for distinct chunk indexes: a chunk of which no selected entry shows a line would overflow the budget |
| PackerBudget.AdmittedSurvive | eval/longmemeval/adapter.py:1106-1139 | an entry admitted in pass 1 keeps its place and header, and its text only grows at the ends |
| PackerBudget.EverySourceShown | eval/longmemeval/adapter.py:1058-1129 | when all guaranteed entries fit together, every candidate's entry is in the result, not shortened |
| PackerBudget.SourceIsCandidate | eval/longmemeval/adapter.py:1037-1056 | a source is a candidate exactly when it is an object with a non-blank chunk |
| PackerBudget.CandidatesAreSorted | eval/longmemeval/adapter.py:1052-1053 | every candidate's entries are ordered by falling score and then chunk index, its chunks by index |
| PackerBudget.CandidateIsSource | eval/longmemeval/adapter.py:1036-1056 | a candidate holds exactly its source's chunks with visible text and one entry for each, with the source's labels and the negated score, and candidates keep the order of their sources |
| PackerBudget.OfferIsAnchored | eval/longmemeval/adapter.py:1069-1076 | the guaranteed entry is the best chunk, or under its labels the excerpt anchored in the source's chunks |
| Lists.SortIsStable | eval/longmemeval/adapter.py:1141-1142 | sorting keeps the order of elements that tie |
| PackerGrown.PassOneIsGreedy | eval/longmemeval/adapter.py:1077-1105 | a source is admitted exactly if its offer fits on top of what the sources before it were charged |
| PackerGrown.ContinuationsAreDecided | eval/longmemeval/adapter.py:1109-1129 | for any cost each continuation is applied if and only if it fits into what final earlier entries and admitted later ones leave, downward before upward |
| PackerGrown.OnlyOverflowIsMissing | eval/longmemeval/adapter.py:1109-1129 | a continuation missing from a final entry would, by its own weight, still overflow the budget at the end |
| PackerGrown.EverythingFitsInFull | eval/longmemeval/adapter.py:1058-1129 | if the charge and all fully continued offers fit together, every one of them is in the result |
| PackerGrown.FullRunsAreShown | eval/longmemeval/adapter.py:1109-1129 | every anchored source is then shown as the run of its lines from the topmost continued line to the lowest |
| PackerBudget.AdmissionUnchanged | eval/longmemeval/adapter.py:1058-1062 | for any cost function admission with and without anchoring agrees if and only if no source is moved to the other side of the budget by what anchoring has saved or added up to it |
| PackerBudget.DominatedAdmissionUnchanged | eval/longmemeval/adapter.py:1058-1062 | where anchoring never raises a cost: if and only if every source turned away without it overflows by more than the savings so far |
| Scenarios.Collected | eval/longmemeval/adapter.py:1036-1056 | the collection loop's candidates for two sessions, the longer chunk first because it matches more terms |
| PackerLines.NoLineShownTwice | eval/longmemeval/adapter.py:565-603 | with chunk indexes distinct within a source, every selected entry shows one run of its source's stream and no two entries share a line, counting windows, applied continuations and fill chunks together |
| Prose.DerivedPackLines | eval/longmemeval/adapter.py:395-417 | the derived lines are the longest prefix within 1600 characters, and the next line would exceed it |
| Prose.ChargeSections | eval/longmemeval/adapter.py:910-951 | facts are charged the length of their joined section and one newline, notes theirs and two |
| Prose.RenderContextBlock | eval/longmemeval/adapter.py:892-990 | the renderer returns the stripped join of the specified lines around the packer's selection, and its count |
| Prose.ExcerptsCostTheirLines | eval/longmemeval/adapter.py:377-381 | the excerpt lines occupy exactly the sum of the entries' costs |
| Prose.ExcerptLinesAt | eval/longmemeval/adapter.py:956-959 | excerpt i is three lines: session, date and the chunk's number counted from 1, then the text, then a blank line |
| Prose.BlockIsSections | eval/longmemeval/adapter.py:960-988 | the block is facts, excerpts, derived dates and grounding notes, in this order, each under its heading and only if not empty, one blank line apart |
| Prose.BlockLength | eval/longmemeval/adapter.py:935-990 | exact length of the joined lines: charged sections, entry costs and the uncharged heading and separators |
| Prose.RenderedLength | eval/longmemeval/adapter.py:892-990 | exact length of the returned block, which therefore keeps a budget if and only if charged and uncharged parts together do |
| Prose.BlockIsBounded | eval/longmemeval/adapter.py:892-990 | at most budget + 37 when the fixed sections fit, plus 1 + heading + 1 + 1600 with derived lines; no excerpt when they do not fit |
| Prose.BlockOverruns | eval/longmemeval/adapter.py:960-964 | with facts, excerpts and grounding notes the block is exactly 37 characters longer than everything charged |
| Prose.BudgetOverrun | eval/longmemeval/adapter.py:960-964 | for a source of one chunk and the budget it uses up, the renderer's block is exactly 37 characters over that budget |
| Prose.AnchoredCostsNoMore | eval/longmemeval/adapter.py:534-538 | in prose an anchored entry never costs more than the chunk it replaces |
| Prose.ProseContinuations | eval/longmemeval/adapter.py:1120-1122 | in prose a missing continuation of n characters leaves at most n characters of the budget unspent |
| Prose.FittingSurvivesAnchoring | eval/longmemeval/adapter.py:1058-1129 | if the best chunks fit together without anchoring, every candidate's entry is shown with anchoring |
| Prose.ProseAdmissionUnchanged | eval/longmemeval/adapter.py:509-510 | in prose the claim of identical admission holds if and only if every source turned away without anchoring overflows by more than anchoring has saved so far |
| Prose.AdmissionCanChange | eval/longmemeval/adapter.py:1059-1062 | two sessions and a budget for which it fails: anchoring admits the second, the baseline does not |
| JsonPack.DocumentEnvelope | eval/longmemeval/pack_formats.py:125-141 | the text around the excerpt array is, put together, the serialized document without excerpts and timeline |
| JsonPack.AppendDerivedTimeline | eval/longmemeval/pack_formats.py:148-158 | the timeline is spliced in before the last brace, nothing changes without derived lines |
| JsonPack.RenderContextJson | eval/longmemeval/adapter.py:1183-1200 | the renderer returns the streamed document of the packer's selection, "" when there is nothing to show |
| JsonPack.StreamedIsWhole | eval/longmemeval/pack_formats.py:125-158 | the streamed text is the compact serialization of the whole object at once, with and without notes and timeline |
| JsonPack.DocumentLength | eval/longmemeval/adapter.py:390-392 | exact length: fixed part, record costs less one comma, timeline |
| JsonPack.DocumentIsBounded | eval/longmemeval/adapter.py:1183-1200 | at most the budget when the fixed part fits, the timeline adds exactly its own length, no excerpt when it does not fit |
| JsonPack.ReadUndoesQuote | eval/longmemeval/pack_formats.py:63-65 | reading a quoted string gives the string back and stops at its closing quote (section 7 of RFC 8259) |
| JsonReader.ReadUndoesCompact | eval/longmemeval/pack_formats.py:63-65 | reading the serialization of any value gives that value back and stops right behind it |
| JsonReader.CompactIsInjective | eval/longmemeval/pack_formats.py:63-65 | different values have different serializations |
| JsonReader.ReadUndoesRender | eval/longmemeval/adapter.py:1183-1200 | the rendered context reads back as the document of its sections, with nothing left over |
| JsonReader.ContextIsUnambiguous | eval/longmemeval/adapter.py:1183-1200 | contexts rendered to one text have the same memories, notes, timeline and excerpts in the same order |
| JsonReader.RecordFields | eval/longmemeval/adapter.py:384-387 | a record says session, date, ordinal and text under their keys, and a normalized date where there is one |
| JsonReader.DocumentFields | eval/longmemeval/pack_formats.py:125-158 | a document says memories, excerpts, notes and timeline under their keys, the last two only if there are any |
| JsonPack.EscapeGrows | eval/longmemeval/pack_formats.py:63-65 | escaping never shortens, and keeps the length exactly when no character needs escaping |
| JsonPack.JsonCostDifference | eval/longmemeval/adapter.py:384-392 | two records of one source differ in cost by exactly their escaped texts and their printed ordinals |
| JsonPack.JsonContinuations | eval/longmemeval/adapter.py:1120-1122 | as JSON the same with its escaped characters and the two of the escaped newline |
| JsonPack.JsonOfferCostsNoMore | eval/longmemeval/adapter.py:474 | as JSON an anchored entry costs no more than the chunk it replaces if and only if its escaped text and ordinal are together no longer |
| JsonPack.JsonAdmissionUnchanged | eval/longmemeval/adapter.py:1059-1062 | exactly when the claim of identical admission holds for JSON |
| JsonPack.AnchoringCanCostMoreAsJson | eval/longmemeval/adapter.py:474 | two sessions for which a shorter anchored window costs more as JSON if and only if its escaped text is longer, and anchoring then loses a session the baseline admits |
| Mcnemar.CombCounts | eval/longmemeval/compare_runs.py:80 | C(n, i) is the number of sign vectors of length n with i ones |
| Mcnemar.TailCounts | eval/longmemeval/compare_runs.py:80 | the summed binomials count the vectors with at most k ones |
| Mcnemar.TailsAreSymmetric | eval/longmemeval/compare_runs.py:80-81 | both tails of the sign vectors have the same size |
| Mcnemar.PValueIsFraction | eval/longmemeval/compare_runs.py:66-81 | twice one tail capped at 1 is the fraction of the 2^(b+c) sign vectors with discrepancy at least abs(b-c) |
| Mcnemar.PValueIsSymmetric | eval/longmemeval/compare_runs.py:66-81 | exchanging b and c keeps the p-value |
| Mcnemar.PValueRange | eval/longmemeval/compare_runs.py:66-81 | it lies in (0, 1] and is 1 exactly when abs(b-c) is at most 1 |
| Mcnemar.PValueDecreases | eval/longmemeval/compare_runs.py:66-81 | for fixed b+c a more lopsided split has a strictly smaller p-value |
| CompareRuns.DedupeLast | eval/longmemeval/compare_runs.py:48-55 | exactly the ids with a row, each with its last row |
| CompareRuns.CompareRecords | eval/longmemeval/compare_runs.py:90-169 | every counter of the loop is the size of the set it names, over exactly the questions judged in both files, also per type and for abstentions; the p-value is that of the flips; the judged counts are those of each file |
| CompareRuns.TypeBucketMeansItsName | eval/longmemeval/compare_runs.py:127-138 | a bucket for exactly the types questions go by (the candidate's name, else the baseline's, else "unknown"), tallying exactly those questions |
| CompareRuns.AbstentionBucketMeansItsName | eval/longmemeval/compare_runs.py:140-143 | the abstention bucket tallies the questions either file flags or whose id ends in "_abs" |
| CompareRuns.JointIsShared | eval/longmemeval/compare_runs.py:95-100 | the compared questions are those judged in both files, so no more than either file's judged count |
| CompareRuns.CellsPartition | eval/longmemeval/compare_runs.py:112-126 | the four cells partition the compared questions, and correct answers differ by the net flips |
| CompareRuns.SwappedRuns | eval/longmemeval/compare_runs.py:90-169 | exchanging the files exchanges gains and losses in the total and abstention buckets and both judged counts, keeps the p-value, and exchanges every type's bucket where the files agree on types |
| Checkpoint.LoadCheckpoint | eval/longmemeval/runner.py:389-406 | the reading loop computes `Load` over rows and unreadable lines |
| Checkpoint.LoadIsLastRow | eval/longmemeval/runner.py:389-406 | the record of a question is its last readable row |
| Checkpoint.LoadedHasRow | eval/longmemeval/runner.py:389-406 | every loaded record is the last readable row of its question |
| Checkpoint.CheckpointFile.Append | eval/longmemeval/runner.py:424-429 | an append adds one row at the end and changes nothing before it |
| Checkpoint.CompletePending | eval/longmemeval/runner.py:884-902 | the pool appends the answers to pending questions in any order, each once, and stops anywhere |
| Checkpoint.RunMain | eval/longmemeval/runner.py:855-915 | the resume logic makes only legal steps, refuses exactly on a foreign fingerprint among the resumed rows and then appends nothing; a finished run reports the resumed rows and its own, without resuming exactly its own answers |
| Checkpoint.ReportIsUniform | eval/longmemeval/runner.py:855-871 | every row of a report has the run's fingerprint and mode |
| Checkpoint.FreshRunReportsItsAnswers | eval/longmemeval/runner.py:855-857 | a finished run without resuming reports exactly the pipeline's answer to each of its questions, whatever the log held |
| Checkpoint.RefusedExactly | eval/longmemeval/runner.py:855-871 | a run is refused exactly if it resumes and some question's last row is a good answer of its mode under another fingerprint |
| Checkpoint.RunsWhatIsMissing | eval/longmemeval/runner.py:872 | a finished run executes exactly those of its questions it does not resume from a good last row of its mode |
| Checkpoint.ReportCoversQuestions | eval/longmemeval/runner.py:855-914 | a report holds each question of the run exactly once if and only if all done questions belong to the run |
| Checkpoint.LimitedRunReportsBoth | eval/longmemeval/runner.py:855-914 | a full run over two questions and then a resumed run limited to the first: both legal, and the second reports both |
| Checkpoint.CrashesDoNotShow | eval/longmemeval/runner.py:389-429 | after any history of runs of one configuration from an empty checkpoint, stopped anywhere and completed in any order, a finished run reports exactly the rows of one uninterrupted run |
| Checkpoint.OneConfigurationIsNeverRefused | eval/longmemeval/runner.py:857-871 | in such a history the gate never refuses |
| Checkpoint.ResumeKeepsDone | eval/longmemeval/runner.py:409-415 | a resumed run does not execute a done question and keeps its record |
| Checkpoint.DoneSetNeverShrinks | eval/longmemeval/runner.py:409-429 | the same along every sequence of resumed runs of one mode, whatever their fingerprints, question lists and outcomes |
| Checkpoint.TornAppendKeepsDone | eval/longmemeval/runner.py:424-429 | behind an unterminated line an append keeps the done-set if and only if no done question rests on that line alone |
| Aggregate.PercentileIsNearestRank | eval/longmemeval/runner.py:575-580 | the value is in the list, at least the asked share of values is at most it, less than that share lies below it |
| Aggregate.GroupByType | eval/longmemeval/runner.py:597-604 | the grouping loop gives every occurring type the accuracy of exactly its records |
| Aggregate.TypesPartition | eval/longmemeval/runner.py:597-604 | questions and correct answers of all types sum to the overall bucket |
| Aggregate.AggregateRecords | eval/longmemeval/runner.py:593-655 | every number in terms of the records' fields: answers and errors, the judged and correct answers overall, by abstention and by type, means, the 50th and 95th percentile, the share with vectors, the failures; and these partition the records |
| Aggregate.OrderDoesNotShow | eval/longmemeval/runner.py:593-655 | permuted records give the same numbers, only the failure list may be permuted |
| Aggregate.CrashesDoNotShowInNumbers | eval/longmemeval/runner.py:912-914 | after any history of crashes and resumes the report has the numbers of one uninterrupted run |
| SemanticReport.StringListIssues | scripts/release_check.py:614-631 | no issue exactly for a list of distinct nonempty strings within the size limits |
| SemanticReport.CaseContractIssues | scripts/release_check.py:730-859 | no issue exactly when recalls, reciprocal rank and status follow from the case's own evidence list and the canonical case; never an issue for a case that reports a ranking as it is |
| SemanticReport.CaseAcceptedExactly | scripts/release_check.py:730-859 | a case is accepted exactly if it reports some ranking of at most ten keys as it is, or claims an off-window rank for a list of fewer than five keys |
| SemanticReport.ShortOffWindowIsAccepted | scripts/release_check.py:838-847 | one displayed key and a reciprocal rank of 1/6: accepted, though no ranking gives it |
| SemanticReport.MeanCaseMetric | scripts/release_check.py:644-653 | the mean of a metric, None for no cases or a value that is no number |
| SemanticReport.SuiteContractIssues | scripts/release_check.py:1357-1564 | no issue exactly when cases, suite means, subset means, totals and targets all agree; never an issue for an honest suite |
| SemanticReport.HonestSuiteIsAccepted | scripts/release_check.py:1357-1564 | 48 cases reported as they are, with their counts, total and means (up to 1e-13) and the three targets met, are accepted |
| SemanticReport.AcceptedSuiteIsConsistent | scripts/release_check.py:1357-1564 | an accepted suite has the canonical cases in order, all counts and the total right, all nine means within 1e-9, and the targets met |
| SemanticReport.RecallCountsHits | scripts/release_check.py:820-831 | summed recalls of accepted cases count the evidence lists with their key in first place, or anywhere |
| SemanticReport.HeadlinesFollowEvidence | scripts/release_check.py:656-673 | all six reported recalls, at 1 and at 5, of suite and subsets, are the fractions of evidence lists with their key in first place and anywhere, within 1e-9 |
| SemanticReport.AcceptanceNeedsHits | scripts/release_check.py:1357-1394 | an accepted report has at least 26 of 32 lexical and 12 of 16 paraphrase hits |
| SemanticReport.AcceptanceNeedsFirstPlaces | scripts/release_check.py:1357-1394 | the reciprocal-rank target forces three times the first places and twice the hits of the 32 lexical lists to make at least 84, so at least 7 first places |
| SemanticReport.MeansAreBounded | scripts/release_check.py:820-846 | the mean reciprocal rank lies between R1 + (R5-R1)/5 and R1 + (R5-R1)/2 + (1-R5)/6 |
| SemanticReport.ReportedMrrIsBounded | scripts/release_check.py:1445-1564 | the reported numbers of the suite and of both subsets obey the same bounds up to 2e-9 |
| ArchiveIndex.EntryIssues | scripts/verify_phase4_rc_archive.py:126-242 | one turn of the loop, with its early exits: no issue exactly for an accepted entry with a new path and no earlier date; then the bookkeeping is up to date |
| ArchiveIndex.EntryLoop | scripts/verify_phase4_rc_archive.py:123-244 | no error exactly when all entries are accepted, paths are pairwise distinct and creation dates are pairwise non-decreasing |
| ArchiveIndex.VerifyArchiveIndex | scripts/verify_phase4_rc_archive.py:70-244 | no error exactly for an index that tells some list of runs as they were |
| ArchiveIndex.AcceptedExactlyIfHonest | scripts/verify_phase4_rc_archive.py:70-244 | accepted if and only if header, entries and summaries tell runs as they were, GO and NO_GO alike, each once and in order of archiving |
| ArchiveIndex.OneMoreEntry | scripts/verify_phase4_rc_archive.py:236-242 | comparing each date with the previous one orders all pairs |
| ArchiveIndex.GoMeansClean | scripts/verify_phase4_rc_archive.py:181-234 | in an index without errors an entry is GO exactly when its exit code is 0 and its failing list is empty |
| Archive.RunJob | scripts/run_archive_maintenance.py:235-288 | pass exactly without exception, errors, warnings or another status; fail exactly on an exception, an error or a reported failure |
| Archive.CollectEntries | scripts/run_archive_maintenance.py:187-199 | the paths of exactly the entries inside the allowed root, an error for every other entry |
| Archive.CollectArchivePaths | scripts/run_archive_maintenance.py:159-201 | the index, its latest summary and its entries, no error exactly when all are covered |
| Archive.HashFiles | scripts/run_archive_maintenance.py:314-319 | the checksums of all files, no error exactly when all are readable |
| Archive.CompareManifest | scripts/run_archive_maintenance.py:321-349 | no error exactly when every recorded checksum is still there unchanged |
| Archive.ManifestFile.VerifyArchiveChecksums | scripts/run_archive_maintenance.py:291-380 | passes exactly when index, paths, files and manifest agree; the manifest is rewritten then and only then |
| Archive.RunKeepsRecords | scripts/run_archive_maintenance.py:351-365 | a passing run records exactly the archive's files with their checksums and keeps every earlier record; any other run leaves the manifest alone |
| Archive.HonestArchivePasses | scripts/run_archive_maintenance.py:291-380 | the first run over an honest archive whose files may be covered passes |
| Archive.UnchangedArchivePassesAgain | scripts/run_archive_maintenance.py:321-365 | a run over an archive unchanged since a passing one passes and leaves the manifest as it is |
| Archive.EverythingListedIsRecorded | scripts/run_archive_maintenance.py:159-201 | after a passing run every listed artifact and the latest summary are recorded |
| Archive.PassesAgainst | scripts/run_archive_maintenance.py:321-351 | a run passes exactly if a first one would and the manifest, if any, is readable and records only checksums that still hold |
| Archive.BrokenManifestStays | scripts/run_archive_maintenance.py:347-351 | an unreadable manifest is never replaced, and no run passes against it |
| Archive.RecordsOnlyGrow | scripts/run_archive_maintenance.py:291-367 | over any sequence of runs with arbitrary changes in between no recorded checksum is changed or dropped |
| Archive.FirstPassIsFinal | scripts/run_archive_maintenance.py:160 | under a collision-free hash the manifest never changes after the first passing run |
| Archive.PassingRunsAgree | scripts/run_archive_maintenance.py:291-367 | all passing runs have one checksum map and the same file contents |
| Reembed.EmbedChunks | scripts/run_archive_maintenance.py:485-519 | the loop over one artifact's chunks adds exactly one row per missing chunk id, behind the rows there were |
| Reembed.ReembedMissingSegments | scripts/run_archive_maintenance.py:448-532 | the job warns without configurations; else it adds one row for each chunk id that was missing, reports how many, or raises having stored nothing when the dimensions are not positive and something is missing |
| Reembed.ThenCompletes | scripts/run_archive_maintenance.py:480-519 | visiting one list of chunks and then another leaves what visiting both leaves, also when they share ids |
| Reembed.SelectedAreIngested | scripts/run_archive_maintenance.py:470-482 | the visited chunks are exactly those of ingested artifacts |
| Reembed.RunIsComplete | scripts/run_archive_maintenance.py:448-532 | afterwards every chunk of every ingested artifact has an embedding for the chosen configuration, every new row is some chunk's vector with the configuration's dimensions, and every earlier row is unchanged |
| Reembed.Target | scripts/run_archive_maintenance.py:448-469 | the first active configuration, else the first |
| Reembed.SecondRunStoresNothing | scripts/run_archive_maintenance.py:448-532 | a second run finds nothing missing and stores nothing |
| Carrier.DecodeUndoesEncode | scripts/run_phase5_ops_evidence.py:311-313 | decoding the length-prefixed fields undoes encoding, for all fields shorter than 2^64 bytes |
| Carrier.StreamsDetermineSnapshots | scripts/run_phase5_ops_evidence.py:316-330 | equal streams come from the same index and the same paths, types, octal modes and payloads |
| Carrier.StreamOfOne | scripts/run_phase5_ops_evidence.py:316-330 | the stream of an index and one entry byte by byte: header, then index, path, type, octal mode and payload, each behind its length in eight bytes, most significant first |
| Carrier.ListingIsUnique | scripts/run_phase5_ops_evidence.py:218-237 | the sorted path list depends only on which paths were listed |
| Carrier.SnapshotPaths | scripts/run_phase5_ops_evidence.py:226-237 | the listed nonempty paths, each once, sorted |
| Carrier.DigestField | scripts/run_phase5_ops_evidence.py:311-313 | feeds exactly one frame, or raises when the length does not fit 8 bytes |
| Carrier.CarrierSnapshotOnce | scripts/run_phase5_ops_evidence.py:316-330 | feeds exactly the stream of index and entries, and raises exactly when some field is too long |
| Caddy.SiteBlocks | scripts/run_single_tenant_deployment_smoke.py:481-511 | the scanning loop computes `Blocks`, the last unclosed block included |
| Caddy.SplitUndoesRender | scripts/run_single_tenant_deployment_smoke.py:481-511 | splitting a file with any lines that open no block before, between and behind its sites gives back exactly the sites if and only if every address is trimmed and no body's running depth closes its block |
| Caddy.DepthCountsBraces | scripts/run_single_tenant_deployment_smoke.py:503 | the depth behind a body is one more than its opening braces exceed its closing ones |
| Caddy.BodyContains | scripts/run_single_tenant_deployment_smoke.py:525-537 | a body contains a searched string exactly when one of its lines does |
| Caddy.CheckBlocks | scripts/run_single_tenant_deployment_smoke.py:525-537 | accepted exactly when some addressed block reaches Alice and each that does holds all directives; the missing upstream is reported exactly when none reaches Alice; else the first directive missing from the first block that lacks one |
| Caddy.ScopingIsExact | scripts/run_single_tenant_deployment_smoke.py:513-537 | for a file of well-formed sites, whatever opens no block around them: accepted if and only if some site proxies to Alice and each that does has every mTLS directive among its own lines |

## Left out

- The product itself (`alicebot_api`: store, retrieval, commit policy): retrieval results, chunk lists and the embedding
  table are inputs.
- Regular expressions, word lists and case folding behind `_line_anchor_score`, `_has_enumeration_signal` and
  `_chunk_overlap_score`: arbitrary functions in `Anchor.Query`; a question without terms is one that scores every
  line 0.
- Building fact lines, memory records and grounding notes from a retrieval result: the finished lines and records are inputs.
- JsonReader.ReadUndoesCompact: the reader is a minimal one for compact documents, not a model of `json.loads`.
- JSON numbers other than integers, and `default=str`, in `compact_json`.
- Packer spans: which lines an entry shows is bookkeeping of the model; no selection decision reads it.
- PackerGrown.FullRunsAreShown: assumes that a blank line does not count as numbered, as with the regular expressions
  of the code.
- PackerShown.UnshownOverflows: assumes chunk indexes distinct within a source, and that a blank line neither scores nor
  counts as numbered, as with the regular expressions of the code.
- PackerLines.NoLineShownTwice: assumes chunk indexes distinct within a source, since covered chunks are excluded by index only.
- CompareRuns.CompareRecords: the accuracies rounded to four digits are not modelled, only the counts they are made of.
- Floating point: the p-value, the means and the shares are exact reals, percentile ranks exact integers; rounding for
  display is not modelled, the tolerance of `math.isclose` is.
- Threads: workers are an arbitrary order of completions. Torn writes appear only in `Checkpoint.TornAppendKeepsDone`.
- Checkpoint.CrashesDoNotShow: takes the pipeline as a function of the question and question ids as distinct; failed
  rows count as answers of that function.
- Of the validator only the `retrieval_quality` suite, and of it not the exact-key checks, titles, latencies, seeding,
  release-gate flags and digests, which can only reject more. The canonical cases are an input, laid out as 32 lexical
  and then 16 paraphrase cases.
- SemanticReport.SuiteContractIssues: names each complaint by kind; its wording and order are not modelled.
- ArchiveIndex.VerifyArchiveIndex: creation dates are ordered as strings; the date format is an arbitrary predicate.
- Archive.ManifestFile.VerifyArchiveChecksums: the manifest file is taken to lie outside the files the index lists, and
  a manifest entry is keyed by its resolved path.
- The other maintenance jobs, report writing, job timing, and error messages.
- Reembed.ReembedMissingSegments: does not say in which order rows are added, nor which text's vector is stored when
  two chunks share an id; the vector itself is an arbitrary function of text and dimensions.
- SHA-256, git, reading directory entries, and the comparison of the two snapshots around them.
- Of the Caddyfile checks only the block scoping: comment stripping and the file-wide directive checks are not
  modelled, and the text is taken to break lines at line feeds only, as after normalization.
- Network clients, package and container checks, demos, web configuration and argument parsing.
