# A verified model of durabl

durabl runs agent workflows durably: every step of a run records its output once in a journal, side
effects go through a log with one row per idempotency key, runs can be forked at a step, a human
decision can suspend a run, and a run with all its forks can be exported as portable lines and
replayed somewhere else. This project models that behaviour in Dafny and proves what the program
promises of it. `dafny verify dfyconfig.toml` checks everything.

## The protocol

`Protocol.dfy` is a transition system. Its durable state is the journal, the run metadata, the effect
log, the substrate's per-step results and its resolve-once promises; around it run any number of
handler attempts, fork requests, input providers and queue flushes. Each read, producer call, effect,
insert, substrate commit, return, crash, fork validation, fork read, fork transaction, peek and
resolve is a step of its own, and every sequence of steps is a schedule. A model call is an arbitrary
text chosen by the schedule. `ProtocolInvariant`, `ProtocolWrites` and `ProtocolSafety` carry one
inductive invariant over all of it; `ProtocolTheorems`, `ProtocolHitl`, `Providers`, `Completion`,
`Deliveries`, `Refinement` and `Answers` draw the results. `Journal`, `EffectSink` and `Workflow` hold the stores as classes, and the handlers as
methods proved against the function `RunFrom` that the refinement theorem speaks about.

What the protocol assumes of its surroundings: single SQL statements and the fork transaction are
atomic, the substrate runs a step at least once and keeps its first result, a promise keeps its first
value, and a run id is used for one workflow. Inserting into the effect log uses up an id even when
the insert is ignored, as SQLite's AUTOINCREMENT does, so effect ids ascend but may have gaps.

## Export, import, replay

`Json` and `Text` give an executable codec whose output is one line per value. `Portable` is the line
format, `Bundle` the export, `BareExport` its untagged form, `Import` the import, `Source` the depth-first visit both use. `RoundTrip`,
`Offline` and `OfflineTheorems` show which journal an import rebuilds, `Fixpoint` when exporting it
again gives the same text, `AllRuns` when it lists the runs as the live store does, `ReachableExport`
that in reachable states export, import, replay and re-export need no condition. `Replay`, `TimeTravel`, `EffectText` and `Comparison`
cover reconstruction, time travel and the comparison. `Examples` holds concrete schedules and stores
on which the exceptions of these theorems occur.
The export of `src/journal.ts` and that of `src/export-source.ts` are the same algorithm over the live
and over any source, and are modelled once.

## Reading the stores

`Lineage`, `Descendants` and `Inspect` relate lineage chains, fork trees and the bundle's visit; `Diff`
compares trajectories. `RunsList` has the keyset pages, `LivePages` and `LiveListing` following them
while rows change, `PagingExamples` what can go wrong then; `OffsetPages` and `ImportListing` page an
import. `Overlay` and `OfflineQueue` handle decisions taken against an import; `RateLimit`, `WsFrame`,
`Feed`, `FeedClient` and `LiveFeed` cover the submission limit and the live feed with its reader.

## Where the code does less than it seems to promise

- Idempotency keys are not injective in general, since both parts may contain colons. The exact
  condition is `Idempotency.KeysCollideExactly`; the workflows meet it.
- provideInput reports duplicates by `accepted: false`, but two interleaved calls can both be told
  true (`ProtocolHitl.TwoProvidersAccepted`), exactly when the second had found the promise unresolved
  before the first resolved it (`Providers.DoubleAcceptanceExactly`). Only the first decision counts.
- Offline replay can differ from live replay for a root run that was never given metadata, and for a
  string payload that is itself JSON text; `OfflineTheorems.OfflineReplay` has both conditions,
  `Examples.UndescribedExample` and `Portable.AmbiguousExample` an input for each.
- The re-export of an import can differ, or fail, when a payload is a JSON string
  (`Fixpoint.ReexportFixpoint`).
- stateAt(n) omits an effect that had fired ahead of its tool step, which replay at that time showed
  (`TimeTravel.TravelBack`, with a schedule in `Examples.FiredAheadExample`).
- The offline handler checks the state of a run under the id as given and queues under the trimmed
  id; `OfflineQueue.FirstDecisionFinalExactly` has the consequence.
- 30 submissions a minute holds per window; over a sliding minute the bound is 59.
- Cursors fail for rows without a creation time, which an import can produce (`RunsList.UndatedCursor`).
  On an import paging comes through exactly when no page ends on such a row
  (`ImportListing.ImportPagination`).
- A fork validated before its target was started replaces the target's row, and the run moves in the
  live list. Following the cursors can then list it twice (`PagingExamples.TwiceListedExample`) or, when
  the fork took its time first, miss it (`PagingExamples.MissedExample`); `LiveListing.LivePagination`
  says exactly when, and `LiveListing.NoneMissed` that none is missed if rows are written in the order
  of their times.
- The live list of all runs breaks ties of creation time by run id, an import's list by visit order
  (`AllRuns.TieExample`, with the exact condition in `AllRuns.AllRunsAgreeExactly`). Sibling lists agree
  (`Offline.ImportedChildren`).

## Model

| member | source | states |
|---|---|---|
| Idempotency.KeyInjective | src/idempotency.ts:44-55 | With colon-free step names, equal keys mean the same run and the same step |
| Idempotency.KeysCollideExactly | src/idempotency.ts:31-55 | For a table of safe step names, some two steps over all run ids share a key if and only if one name of the table ends with a colon followed by another; the plain claim of injectivity is false |
| Idempotency.CollisionExample | src/idempotency.ts:31-54 | The concrete collision of ("a:b", "c") with ("a", "b:c") |
| Idempotency.KeyStepOf | src/idempotency.ts:44-55 | A colon-free step name can be read back from its key |
| Workflow.StepNameSafe | src/workflow.ts:26-30 | Every name of both step tables is safe and colon-free, which is what key injectivity needs |
| Workflow.StepNamesDistinct | src/hitl-workflow.ts:52-58 | No two steps of one workflow share a name |
| Workflow.StepTables | src/hitl-workflow.ts:52-58 | Both step tables with the names and kinds the journal stores, as texts |
| Workflow.OutputDepends | src/hitl-workflow.ts:67-178 | The output of a step depends on the model answer only in the plan step, on the decision only in the input step, on the effect id only in the tool step |
| Workflow.RunAgent | src/workflow.ts:35-125 | The three-step handler alone computes the specification RunFrom; on a run nobody began before its outputs and its one effect are spelled out from the plan, the effect id, the branch and the prompt |
| Workflow.RunHitl | src/hitl-workflow.ts:67-178 | The same for the five-step handler: the decision stands in the tool result, in the effect's payload and in the answer |
| Workflow.LoneHitl | src/hitl-workflow.ts:67-178 | The texts of a crash-free run that waits for a human, and its effect, from the specification run |
| Journal.TrajectoryExact | src/journal.ts:252-262 | A trajectory is exactly the rows of the run, each once, in ascending seq |
| Journal.RecordExactly | src/journal.ts:107-150 | Every branch of recordStep: the stored row is answered; a new step's row has what was recorded and the producer's value for the derived key; unsafe names and taken keys are errors that store nothing |
| Journal.RecordOnce | src/journal.ts:107-150 | A second recordStep of the same step returns the recorded value whatever its producer would return, and leaves the journal alone |
| Journal.JournalStore.Record | src/journal.ts:107-150 | Looks up by seq, runs the producer on a miss, inserts: a new step returns and stores the producer's value in a row spelled out field by field, a recorded one is answered from its row, an error stores nothing |
| Journal.JournalStore.EnsureRunMeta | src/journal.ts:264-275 | Inserts a root row or leaves an existing one untouched |
| Journal.JournalStore.ForkRun | src/journal.ts:317-376 | All copies and the replaced lineage row, or the journal exactly as it was |
| Journal.SeedStepsExact | src/journal.ts:353-366 | A seeding that commits adds exactly the copies under the target and changes nothing else |
| Journal.SeedStepsSucceeds | src/journal.ts:353-366 | Copies with distinct seqs and keys always go into an empty target |
| Journal.ForkPlanAccepted | src/fork.ts:61-91 | A plan is accepted if and only if it copies an existing step from seq 1 on to a safe, unused, different run id |
| Journal.JournalStore.SeedFork | src/fork.ts:98-106 | A rejected plan changes nothing; an accepted one seeds transactionally |
| EffectSink.FireOnce | src/effect-sink.ts:62-95 | A key that fires again keeps its one row, its id and its payload, while the AUTOINCREMENT counter moves on |
| EffectSink.FirstFire | src/effect-sink.ts:62-95 | A key that has not fired gets the next id in a row with what was fired, when and by whom |
| EffectSink.FireKeepsIds | src/effect-sink.ts:30-42 | Ignored inserts included, ids stay strictly ascending and at most the counter, and keys stay unique |
| EffectSink.RetryLeavesGap | src/effect-sink.ts:62-95 | A retry between two effects leaves a gap: the second effect gets id 3 |
| EffectSink.Sink.FireEffect | src/effect-sink.ts:62-95 | Keys stay unique, ids ascend, possibly with gaps, and the id of the key's one row comes back |
| ProtocolSafety.StepSafe | src/journal.ts:107-237 | Every single transition of workers, forks and inputs preserves the invariant and only grows the durable state |
| ProtocolSafety.Invariant | src/workflow.ts:35-125 | The invariant holds after every schedule of reads, producers, fires, inserts, commits, crashes, retries, forks and inputs |
| ProtocolTheorems.TwoStoreAgreement | src/journal.ts:10-15 | Every value in the substrate log, carried by a worker or returned, is the journaled output then and under every continuation, with arbitrary producers and lost insert races |
| ProtocolTheorems.ExactlyOnce | src/effect-sink.ts:40-95 | After any schedule a (run, step) has at most one effect row, exactly one once natively journaled, and none when a fork seeded it |
| ProtocolTheorems.EffectsConserved | src/journal.ts:317-376 | Effect rows over any set of runs number exactly the native side-effect entries plus the effects fired and not yet journaled |
| ProtocolTheorems.Provenance | src/journal.ts:325-371 | Even when validation and seeding interleave: parent pointers form a forest, a seeded entry names the run's parent, and traces to one native ancestor entry with the same seq, name, output and key |
| ProtocolTheorems.AncestorAgreement | src/journal.ts:353-366 | A descendant agrees with its ancestor on every seq up to the lowest fork point between them |
| ProtocolTheorems.FamilyPrefix | src/inspect.ts:92-109 | Two runs of one family agree on every seq within the fork points of both paths to a common ancestor, forever |
| ProtocolTheorems.ForkCommitsExactly | src/fork.ts:98-106 | A validated fork commits if and only if its target still has no entry when the transaction runs |
| ProtocolTheorems.InsertLosesExactly | src/journal-migrate.ts:32-46 | The insert of recordStep fails if and only if another process journaled the same seq first; the key index alone never fails it |
| Refinement.CrashRefinement | src/workflow.ts:35-125 | A run that returned, under any schedule of crashes, retries and races, has the journal, effects and outputs of one crash-free handler alone, given the first recorded plan, the decision, the effect rows before its own and the next effect id; times and pids aside |
| Completion.ReturnsExactly | src/workflow.ts:35-125 | From every reachable state, a newly started handler moving alone can bring a run to its answer if and only if the run was submitted, has a safe id and, where it waits for a human, has its promise resolved |
| Answers.AgentAnswers | src/workflow.ts:69-124 | Under any schedule, the tool result of a returned agent run names its own effect, whose payload is the plan, and its answer is spelled out from branch, prompt, plan and tool result, except for steps a fork seeded |
| Answers.HitlAnswers | src/hitl-workflow.ts:116-177 | Under any schedule, a returned run shows the first accepted decision in its tool result, its effect's payload and its answer, all spelled out, except for steps a fork seeded |
| Answers.EffectTexts | src/hitl-workflow.ts:143-160 | Every effect row, also of runs that never return, has the step name, branch and payload its run had journaled |
| Deliveries.AnythingCanBeLost | src/crash-inject.ts:28-40 | Whatever a handler, a fork request or an input call holds can be lost at any moment, and nothing else with it |
| Deliveries.TakenUpExactly | src/hitl-offline-queue.ts:101-132 | A flush calls with a queued decision if and only if its row is pending, its run stands at the pause and its promise is unresolved |
| Deliveries.QueuedIsDelivered | src/hitl-offline-queue.ts:101-132 | A decision queued for such a run can be delivered: the promise is resolved with it, the row marked, and nothing else changes |
| ProtocolHitl.FirstDecisionWins | src/hitl-workflow.ts:99-158 | A native hitl_input output and every effect payload hold the first accepted decision, now and under every continuation |
| ProtocolHitl.TwoProvidersAccepted | src/hitl-workflow.ts:190-202 | Two interleaved provideInput calls can both be answered accepted; the first resolution alone stays |
| Providers.DoubleAcceptanceExactly | src/hitl-workflow.ts:190-202 | After any schedule, when a call resolves its run's promise, a further call of the run can be answered accepted on some continuation if and only if another call of the run is in flight at that moment |
| Providers.SingleAcceptance | src/hitl-workflow.ts:181-202 | If at no moment of a schedule two calls of a run are in flight, exactly one of its calls is answered accepted once the promise is resolved, and none before |
| ProtocolHitl.HitlStateExact | src/journal.ts:625-631 | In reachable states the HITL state is decided by which of the entries 2 and 3 are journaled |
| ProtocolHitl.HitlMonotone | src/journal.ts:625-631 | The HITL state never moves backwards from none through paused to resumed |
| ProtocolHitl.OnlyForksSkipThePause | src/journal.ts:317-376 | One step moves a run from none straight to resumed only if it is a fork seeding through seq 3 or later |
| Text.SplitJoin | src/journal-source.ts:138-140 | Splitting at newlines undoes joining newline-free lines |
| Json.ParsePrint | src/journal.ts:577-593 | JSON.parse undoes JSON.stringify on every value of the model |
| Json.HexEscapeExactly | src/journal-source.ts:144 | A four-digit escape denotes the character of that code, and half a surrogate pair none |
| Json.LeadingZero | src/journal-source.ts:144 | A numeral with a superfluous leading zero is no JSON |
| Json.PrintOneLine | src/journal.ts:577-593 | Serialized values hold no newline, so one record is one line |
| Portable.LineRoundTrip | src/journal-source.ts:91-178 | Every exportable record is read back from its line through trimming, parsing, tag dispatch and hydration, with effect payloads rewritten |
| Portable.WireTags | src/journal.ts:558-593 | The tags and the schema version on the wire, as texts |
| Portable.OldEffect | src/journal-source.ts:167-178 | An effect line with the older field names is read with defaults for what it leaves out |
| Portable.ShortMeta | src/journal-source.ts:106-118 | Metadata without lineage, branch or date is an undated root's on branch main |
| BareExport.BareLineRoundTrip | src/journal-source.ts:158-161 | An untagged journal entry is read back from its line |
| BareExport.OtherLines | src/journal-source.ts:138-163 | Blank lines and objects with unknown tags are passed over, and what is no JSON object is an error |
| BareExport.BareImport | src/journal.ts:551-557 | In every reachable state, importing a run's bare export gives its live trajectory and a made-up root of branch main created at its first step, and nothing else |
| Portable.PayloadSurvives | src/journal-source.ts:174 | A payload reads the same after export and import if and only if it is not a JSON string whose own text is JSON |
| Portable.AmbiguousExample | src/replay.ts:149-155 | The string payload "1" comes back as the number 1 |
| Portable.Conversions | src/journal-source.ts:91-118 | String(), Number() and Boolean() of scalars, as a table of results |
| Portable.NumberOfNumeral | src/journal-source.ts:91-131 | Number of the decimal text of a number is that number, so numeric text is accepted where a number belongs |
| Import.ParseExport | src/journal-source.ts:133-165 | The loop collects the records of all lines in order, or the error of the first bad line |
| Import.ReadLinesExactly | src/journal-source.ts:133-165 | Reading fails if and only if a line is bad, with the error of the first bad one, and otherwise keeps the order of the lines |
| Import.GroupByRun | src/journal-source.ts:192-198 | Each run's collection is the stable sort of exactly its own items, and the runs are listed in order of first appearance |
| Import.ImportJournalSource | src/journal-source.ts:186-240 | The returned source answers every question as the specification ImportedSource of the parsed records |
| Import.LastMetaWins | src/journal-source.ts:200-201 | Of several metadata lines of one run the last counts |
| Import.FirstMetaPlaces | src/journal-source.ts:200-201 | and it stands where the first of them stood |
| Source.VisitOnce | src/export-source.ts:30-42 | The visit meets each run at most once and is closed under children, for any source, cycles included |
| Source.VisitAgree | src/export-source.ts:30-42 | Sources that agree on the children of the visited runs are visited alike |
| Bundle.ExportJsonl | src/export-source.ts:5-28 | The exported text is the joined lines of the run's metadata, steps and effects, or the error of an unparseable payload |
| Bundle.ExportRefusedExactly | src/export-source.ts:12-25 | An export is refused if and only if the payload of some effect in it is not JSON |
| Bundle.RecordsInOrder | src/export-source.ts:5-28 | A run's records are its metadata, its steps and its effects, each in the source's order |
| Bundle.Exporter.Visit | src/export-source.ts:33-39 | The recursion marks and collects exactly what the visit meets, and throws exactly when some visited payload is not JSON |
| Bundle.ExportBundle | src/journal.ts:602-614 | The bundle is the joined lines of every record of every visited run, skipping empty texts |
| Descendants.ChildRunsExact | src/journal.ts:382-406 | Direct forks are exactly the runs whose parent pointer names the run, in order of creation time and run id |
| Descendants.BundledExactly | src/journal.ts:602-614 | A bundle visits exactly the descendants of its root, each once, also with cyclic parent pointers |
| Descendants.BundledInOrder | src/export-source.ts:30-42 | In a forest the visit meets the forks of each run in the order the live store lists them |
| RoundTrip.ReadBack | src/journal-source.ts:133-165 | The text of any exportable records parses to those records |
| Offline.ImportedRuns | src/journal-source.ts:192-224 | Steps and effects of each bundled run come back under that run, in their own order, and no others do |
| Offline.ImportedTable | src/journal-source.ts:200-216 | Metadata comes back for each bundled run; only runs with steps and no metadata get a made-up root row |
| Offline.ImportedChildren | src/journal-source.ts:230-233 | The stable sort by creation time over visit order reproduces the live sibling order, ties included |
| OfflineTheorems.BundleReadBack | src/journal-source.ts:133-165 | Whatever bundle can be exported can be imported |
| AllRuns.AllRunsAgreeExactly | src/journal-source.ts:235-238 | The import's list of all runs is the live list restricted to the bundled runs if and only if the root has metadata (or no steps) and bundled runs created at one time are visited in run id order |
| AllRuns.TieExample | src/journal.ts:409-419 | A root and a fork created at one time that the two lists order differently |
| Examples.UndescribedExample | src/journal-source.ts:200-216 | A root with a step and no metadata whose replay from its own bundle differs from live replay |
| OfflineTheorems.OfflineReplay | src/replay.ts:102-147 | For every run of the tree, reconstruction from the exported text alone equals live reconstruction if and only if the run has metadata (or no steps) and no payload is a string that is JSON text |
| Fixpoint.SameLine | src/export-source.ts:12-25 | A received record is written as the line it came from if and only if its payload is not a string |
| Fixpoint.ReexportFixpoint | src/export-source.ts:30-42 | Exporting the import reproduces the bundle character for character if and only if the root has metadata (or no steps) and no payload of the tree is a string |
| ReachableExport.PortableAlways | src/journal.ts:573-614 | In every state the protocol reaches, every bundle exports, imports, replays each of its runs as live, and re-exports to the identical text |
| Replay.DivergencePointsExact | src/replay.ts:158-171 | Divergence points are exactly the direct forks with a fork point, ordered by that point and then by run id |
| Replay.ReconstructExactly | src/replay.ts:102-147 | Each replayed step is the trajectory's entry field by field, with the time since the one before and the run's effects of its step name; effects are the run's rows; label, total time and outcome are the metadata's, the recordings' and the last entry's |
| Replay.RefusedExactly | src/replay.ts:198-209 | Time travel is refused if and only if the step is outside 1 through the last seq, which is maxSeq |
| Replay.StateAtExactly | src/replay.ts:210-226 | Otherwise it shows exactly the steps up to n, the output of step n, the effects of those steps by name and the forks that had branched off by then, in order |
| TimeTravel.TravelBack | src/replay.ts:198-226 | stateAt(n) from any later state has the steps and current output that replay showed when the run held exactly n steps, and the same effects if and only if no effect had fired ahead of its tool step |
| Examples.FiredAheadExample | src/replay.ts:198-226 | A schedule after which stateAt of the last step omits an effect that replay shows: plan recorded, tool fired, tool step not inserted yet |
| TimeTravel.FaithfulTimeTravel | src/replay.ts:198-226 | At the moment seq n is journaled nothing has fired ahead, so stateAt(n) from every later state is exactly what replay returned then |
| EffectText.EffectLineInjective | src/replay.ts:284-289 | The compared line of an effect determines its key and payload, for keys with bars in them too |
| EffectText.SortedTextDecides | src/replay.ts:284-290 | The sorted serialized lines agree if and only if the (key, payload) multisets do |
| Comparison.AssertReplayMatches | src/replay.ts:249-300 | Reports exactly the differences there are, and calls two reconstructions identical if and only if steps agree in seq, name, kind, output and key and the effect multisets are equal |
| Inspect.LineageFrom | src/inspect-source.ts:35-52 | The loop ends on every source and returns the chain of parents up to the run itself, root first, each node with its run's metadata and the parent of the next |
| Inspect.ChainExact | src/inspect-source.ts:35-52 | In a forest the chain from x holds exactly the runs with metadata that x descends from |
| Inspect.ChainLinks | src/inspect-source.ts:35-52 | Every node of a chain shows its run's metadata, and the next one is the run its parent pointer names |
| Inspect.TreeBuilder.Build | src/inspect-source.ts:76-94 | The recursion with its seen set and its limit builds the specified tree, on cyclic sources too |
| Inspect.TreeShows | src/inspect-source.ts:76-94 | Every node of a tree shows its run's metadata or (unknown), its children are its run's forks in order unless it stayed a leaf, and runs met before or after 10,001 others stay leaves |
| Inspect.TreeLineageDuality | src/inspect-source.ts:76-94 | In a forest, x is in the tree of a run if and only if the run is in the lineage of x, for every x, exactly when no run visited after the first 10,001 has forks; the tree then lists what the bundle visits, each run once |
| Diff.DiffTrajectories | src/inspect.ts:170-203 | One row per seq of either run in ascending order, and the least seq at which outputs differ, or none if they never do |
| Diff.RowOfBoth | src/inspect.ts:170-203 | A row where both runs have the seq: same or changed by output, both outputs, and whether either was seeded |
| Diff.RowOfOne | src/inspect.ts:170-203 | Rows where one run has the seq: which one, its output and name, and whether it was seeded |
| Diff.FamilyDivergence | src/inspect.ts:170-203 | Two runs of one fork family first differ strictly after the fork points on both their paths from a common ancestor |
| RunsList.CursorRoundTrip | src/journal.ts:522-539 | A cursor decodes to its row if and only if the creation time is non-empty and free of NUL and the run id is non-empty |
| RunsList.UndatedCursor | src/journal.ts:527-539 | The cursor of a row without a creation time is rejected |
| RunsList.ParseQuery | src/runs-list.ts:43-61 | An accepted page limit is between 1 and 500 and a cursor is never empty |
| RunsList.QueryAsked | src/runs-list.ts:43-61 | The limit is the one asked for, 50 when none is and 500 at most, and the cursor is the trimmed one that was given |
| RunsList.CursorUsed | src/journal.ts:484-519 | No cursor asks for the first page, one that does not decode is an error, any other for the page after its key |
| RunsList.PageExact | src/journal.ts:484-519 | A keyset page holds rows beyond the cursor, in order, none skipped, and points to its last row if more follow |
| LivePages.Relisting | src/journal.ts:484-519 | Over any snapshots in which no row is replaced twice: no cursor is rejected, no run is listed more than twice, and in a finished walk exactly the overtaken runs are listed twice and exactly the pulled-back ones, of those there from the start, are missed |
| LiveListing.LivePagination | src/journal.ts:336-371 | The same along any schedule of starts and forks between the pages, for dated and named runs: a run is overtaken when its listed row is replaced by one beyond the key of a request still to come, pulled back when its row still to come is replaced by one behind the key of the next request |
| LiveListing.NoneMissed | src/journal.ts:484-519 | When metadata is written in the order of its creation times, a finished walk lists every run that was there when it began, once or twice |
| PagingExamples.TwiceListedExample | src/fork.ts:61-106 | A schedule along which paging lists one run twice: it is started between the validation and the commit of a fork onto it |
| PagingExamples.MissedExample | src/journal.ts:334-371 | A schedule along which paging ends without a run that was there throughout: the fork had taken its time before the run was started |
| RunsList.StaticPagination | src/journal.ts:484-519 | On an unchanging store following the cursors ends and yields the unpaginated list, for every page size |
| OffsetPages.OffsetCursorUsed | src/runs-list.ts:96-107 | A cursor that does not decode is an error, and so is one whose row the list does not have |
| OffsetPages.OffsetPagination | src/runs-list.ts:96-120 | Offset pages over a list with distinct keys end and put together the list if and only if every row that ends a page, except the last page, has a creation time and a name its cursor can carry |
| ImportListing.ImportPagination | src/runs-list.ts:96-120 | An import lists every run of its metadata table once, and following the cursors over that list ends and yields all of it under exactly that condition |
| Overlay.OverlayAdds | src/hitl-offline-overlay.ts:10-35 | The overlay adds one input entry right after the pause and returns the entries in order |
| Overlay.OverlayIdempotent | src/hitl-offline-overlay.ts:10-35 | Overlaying again changes nothing, and a decision that shows cannot be replaced by another |
| Overlay.OverlayState | src/hitl-source.ts:14-20 | A queued decision turns paused into resumed and changes no other state |
| Overlay.OverlayIsNative | src/hitl-offline-overlay.ts:22-33 | Over a paused run of the workflow the synthetic entry is the one the input step would journal |
| OfflineQueue.FirstDecisionWins | src/server.ts:602-643 | Although enqueue is a last-wins upsert, after any submissions through the handler the queue holds the first accepted decision of the run |
| OfflineQueue.FirstDecisionFinalExactly | src/server.ts:614-632 | A queued decision is final if and only if the import has no paused run whose id is the run's id with white space around it |
| OfflineQueue.ValidRunIdExactly | src/hitl-offline-queue.ts:38-48 | A valid run id is a colon-free key component of at most 128 characters that starts with a letter or digit and has no two dots in a row |
| OfflineQueue.ValidDecisionExactly | src/hitl-offline-queue.ts:50-56 | A valid decision has 1 to 8192 characters and none of the listed control characters |
| OfflineQueue.RespondExactly | src/server.ts:582-643 | Which answer the handler gives: by the form of the submission, the limit, the imported state and the queue |
| OfflineQueue.PendingQueue.EnqueueOfflineHitl | src/hitl-offline-queue.ts:78-99 | A valid decision replaces any row of its slot and makes it pending; an invalid one changes nothing |
| OfflineQueue.PendingQueue.HandleHitlInput | src/server.ts:582-643 | The response and new queue for every branch of the offline handler |
| OfflineQueue.PendingQueue.Flush | src/hitl-offline-queue.ts:101-132 | Asking again for each row whether its run is paused: flushed + skipped + failed is the number of pending rows, each count is exact, exactly the rows not delivered stay pending, and a resolved promise never changes its value |
| RateLimit.RateLimiter.AllowHitlInputSubmit | src/hitl-input-rate-limit.ts:8-18 | The decision and the new buckets in every branch |
| RateLimit.PerWindow | src/hitl-input-rate-limit.ts:3-18 | An open window counts exactly the submissions allowed in it, at most 30 |
| RateLimit.RefusedExactly | src/hitl-input-rate-limit.ts:8-18 | A submission is refused if and only if a window of its run is open and 30 were allowed in it |
| RateLimit.RateBound | src/hitl-input-rate-limit.ts:3-18 | At most 59 submissions of a run are allowed in any half-open interval of 60,000 ms |
| RateLimit.RateBoundTight | src/hitl-input-rate-limit.ts:3-18 | A request sequence that reaches 59 |
| RateLimit.Independent | src/hitl-input-rate-limit.ts:6-17 | What is allowed for a run does not depend on other runs' submissions |
| WsFrame.SendWsText | src/ws-frame.ts:41-61 | The header buffer filled byte by byte in one of three sizes, followed by the payload, is the specified frame |
| WsFrame.FrameRoundTrip | src/ws-frame.ts:41-61 | A frame followed by anything is decoded to its payload by section 5.2 of RFC 6455, which demands the minimal length encoding |
| WsFrame.StreamRoundTrip | src/ws-frame.ts:41-61 | A stream of frames decodes to the list of payloads, none lost or merged |
| Feed.Connection.PushNewSteps | src/ws-runs.ts:81-94 | The poll's loop and its state comparison compute the specified poll |
| Feed.FeedStream | src/ws-runs.ts:62-115 | The bytes sent decode to the greeting, one step event per entry after its snapshot in ascending seq, and a state event at each change only |
| FeedClient.HearMessage | src/ws-runs.ts:92-128 | A reader that goes by the message type and field names hears each message as the event it was sent for |
| FeedClient.HearStream | src/ws-runs.ts:73-128 | Read frame by frame and message by message, the bytes of a connection tell exactly the events sent, in order |
| LiveFeed.FeedAlong | src/ws-runs.ts:62-115 | With the protocol going on between any two reads of a connection, its bytes decode to a greeting, every entry journaled between its first and last reading of the trajectory, once each and in order, and at most two state events, each moving forward and the last one up to date |

## Left out

- HTTP routing, static files, authentication, logging, metrics, command line and web UI: plumbing without state of its own.
- Restate, SQLite, SHA-256, base64url and UTF-8: used through the contracts named above; UTF-8 is a parameter of the feed, base64url a bijection.
- Model providers and their retries: a model call is an arbitrary text.
- Wall-clock time: times are opaque texts, Date.parse is a parameter, and times and process ids are left out where different runs are compared.
- Runs that change workflow, such as an AgentRun over a HITL prefix, and raw recordStep or forkRun calls outside the handlers: the protocol gives a run id one workflow.
- JSON numbers with fractions or exponents, lone surrogates, and insignificant white space inside a line: the codec has integers and the compact form.
- Import.ParseExport: converts scalars as String() and Number() do, text in decimal, hexadecimal, octal and binary included, where the result is a natural number; numbers that are negative, have a fraction or exponent or come from other text (NaN), and arrays or objects where a scalar belongs, are errors here and are kept or coerced by the program.
- Text is ordered and measured by character, where JavaScript uses UTF-16 units: they differ only beyond the basic plane.
- The origin label of a source, in reconstructions as well.
- LiveListing.LivePagination: asks that stored times are non-empty texts without NUL, as toISOString gives them, and that submitted run ids are not empty; a page that ends on any other row has a cursor that does not lead back to it (`RunsList.CursorRoundTrip`).
- OfflineQueue.PendingQueue.Flush: takes the rows in any order, because the query has none, and treats the ingress retries as one delivery with three possible fates.
- The order of listQueuedHitl: only its lookup by run is used.
- The live branch of the input handler: its state check and its delivery are the Peek and Resolve steps of the protocol.
- src/journal-migrate.ts beyond the unique indexes, src/otel.ts, the Python mirror, the DBOS adapter, gates and demos: the same algorithms, or scaffolding.
