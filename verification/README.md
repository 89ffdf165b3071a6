# memory-base: a verified model

A Dafny model of the parts of memory-base that decide what is kept, merged, dropped, claimed or
undone, with proofs about every input, every run or every reachable state.

| area | files | how it is modelled |
|---|---|---|
| consolidation of notes | `Groups` to `GroupLocality`, `Rows`, `NoteOps`, `Registry`, `Verdicts`, `PlanFacts`, `Histories`, `Inv*`, `Runs`, `Reachable`, `Acceptance`, `Convergence`, `Effects`, `Leftovers`, `Planner`, `Tables` | grouping as a function with its loops proved equal to it; every transaction as a function on the tables, a class `Tables.Store` whose methods compute those functions, keep every reachable invariant and state what a caller relies on, and theorems over histories of them |
| document chunker | `Chunks`, `ChunkFacts`, `Cuts`, `ChunkLoops` | each pass as a function, the loops proved equal to it, and a one-pass reading of the text as the reference for what must survive |
| job scheduler and upload spool | `Jobs`, `Spool` | the job table as a class; the crash steps between database and disk as a state machine |
| message lane | `Rendering`, `Messages` | the Markdown printer with a parser for it; the lane as a class and as runs of events |
| turn lane | `Turns` | the table as a class, reading in pages as a recursion over `next_offset` |
| sampling quotas | `Quotas` | largest remainder, with its loops |
| shared | `Basics`, `Order`, `Text` | options, code-point order, sorting, strip and splitlines |

`dafny verify dfyconfig.toml` checks everything.

Reading conventions. A digest is modelled by the value it digests, so equal ids, group keys and
payload hashes mean equal content. Times are natural numbers from a logical clock that never
repeats and, for stamps read under a lock, only increases (`Histories.Ready`, `Messages.AfterChain`).
Scores are reals. A database transaction is one atomic step; the one place where another
transaction can come between, inside `process_verdict`, is explicit: `Tables.Store.ProcessVerdict`
lets any history of other transactions commit there. Similarity, letter case,
credential detection, the token check, Unicode categories, URL and scope checks are function
parameters. An exception is a refusal value.

Where the code and its own promises differ, the code is modelled:

- Undoing an action at once can be refused: after a merge recreates the text of a note that was
  deleted, a note that superseded the deleted one counts as the replacement's successor.
  `Leftovers.UndoAtOnceRefused` is such a history from empty tables, `Reachable.UndoAtOnce` says
  exactly when undoing at once works.
- A paragraph whose first line is an indented fence marker is split as a fence, so a word that would
  have fitted can be cut although whitespace is near: `Cuts.IndentedFenceCutsWord` is such a document,
  `Cuts.ParagraphCutExactly` says exactly when it happens. Every other paragraph is cut only at
  whitespace or inside a run of more than 2000 characters.
- An admission that commits and then raises unlinks the file of a queued job:
  `Spool.AdmissionLosesFile` is such a run, `Spool.FilesLostExactly` says exactly when a run leaves an
  unfinished job without its file.
- A residue can join a predecessor across a dropped residue, so dropped text may stand between two
  texts that end up in one chunk; order within what is kept is still the document's.

## Model

| member | source | states |
|---|---|---|
| GroupBuilder.Build | src/memory_base/serve/consolidation/groups.py:221-290 | the nested loops with skip sets and first reasons return exactly the groups and deferrals of the reference definition |
| GroupBuilder.CollectEdges | src/memory_base/serve/consolidation/groups.py:232-236 | the edge dictionary is the reference edge map |
| GroupBuilder.GrowClique | src/memory_base/serve/consolidation/groups.py:254-281 | the grow loop with its skip set adds the members, in order, and records the reasons that the reference growth does |
| GroupBuilder.PackEdges | src/memory_base/serve/consolidation/groups.py:242-284 | the pass over the ordered edges is the reference packing |
| GroupBuilder.MakeGroup | src/memory_base/serve/consolidation/groups.py:293-296 | members sorted, least and greatest pairwise score |
| GroupEdges.EdgesAreBest | src/memory_base/serve/consolidation/groups.py:232-236 | an edge exists for two notes exactly when a qualifying pair names them, and carries the best score of any direction or repetition |
| GroupEdges.EdgesAreSound | src/memory_base/serve/consolidation/groups.py:232-236 | edges are unacknowledged, at or above the threshold, without loops, one per two notes |
| GroupEdges.BuildIgnoresOrder | src/memory_base/serve/consolidation/groups.py:221-290 | order, direction and repetition of the pairs do not change the result |
| GroupEdges.BuiltGroupsAreCliques | src/memory_base/serve/consolidation/groups.py:242-296 | every group is a sorted clique of at least two notes within both caps, and its two scores bound and attain its pairwise scores |
| GroupEdges.BuiltGroupsDisjoint | src/memory_base/serve/consolidation/groups.py:242-283 | two groups share no note |
| GroupEdges.BuiltPartition | src/memory_base/serve/consolidation/groups.py:284-290 | a note has an edge exactly when it is grouped or deferred, never both |
| GroupEdges.BuiltLeavesNothingUsable | src/memory_base/serve/consolidation/groups.py:246-253 | two deferred notes share a qualifying pair only if their texts alone exceed the character cap |
| GroupEdges.BuiltGreedily | src/memory_base/serve/consolidation/groups.py:240-296 | groups are made in non-increasing returned score; a common neighbour left out was in an earlier group or is kept out by a cap |
| GroupFacts.NothingUsableLeft | src/memory_base/serve/consolidation/groups.py:246-283 | on the edge map: two notes outside every pack share an edge only if they do not fit together |
| GroupResult.MaxScoreIsSeed | src/memory_base/serve/consolidation/groups.py:242-296 | a group's greatest score is the score of the edge that seeded it |
| GroupLocality.PartGroups | src/memory_base/serve/consolidation/groups.py:221-290 | on any set of notes no edge leaves, grouping the whole and keeping that set's groups is grouping the set alone |
| GroupLocality.GroupingIsLocalToAuthors | src/memory_base/serve/consolidation/groups.py:188-209 | restricting the groups and deferrals over all authors to one author gives that author's own, same scores and order |
| Planner.ReadAllPairs | src/memory_base/serve/consolidation/groups.py:143-162 | folding the neighbour rows into one best score per two notes yields the sorted pairs |
| Acceptance.AuthorGroups | src/memory_base/serve/consolidation/groups.py:171-209 | one author's groups are the groups over every author that hold a note of theirs |
| Acceptance.ReadingByAuthor | src/memory_base/serve/consolidation/groups.py:188-201 | pairs read one author at a time, in any order, build the same groups as pairs read at once |
| Acceptance.ReportedIsAccepted | src/memory_base/serve/consolidation/groups.py:366-383 | a verdict naming a reported group, members in any order, is never stale for want of a group, cached or mixed: only the cap and the verb's checks remain, and a keep is planned as it stands |
| Acceptance.KeysNameMembers | src/memory_base/serve/consolidation/groups.py:299-320 | equal group keys name equal members |
| Planner.Plan | src/memory_base/serve/consolidation/verdicts.py:646-691 | the checks in order give the specified outcome, with the groups rebuilt by the loops |
| PlanFacts.PlannedOnGroup | src/memory_base/serve/consolidation/verdicts.py:646-691 | a plan exists only for a current group of distinct members under the submitted key, with nothing recorded or cached, and below the cap unless it keeps |
| PlanFacts.DecidedIsSound | src/memory_base/serve/consolidation/verdicts.py:566-643 | every plan archives only active members of the namespace, leaves an active survivor outside the archive list, and creates a note only under an unused id for all members |
| PlanFacts.RetireIsSound | src/memory_base/serve/consolidation/verdicts.py:566-580 | a planned retire archives some members and leaves one |
| PlanFacts.MergeIsSound | src/memory_base/serve/consolidation/verdicts.py:583-643 | a planned merge archives all members into a new or equal note, or retires all but a member it restates |
| InvNotes.ProcessRefines | src/memory_base/serve/consolidation/verdicts.py:837-879 | the exact condition: a processed verdict changes a table, and answers that it applied, exactly when it is no dry run and snapshot and locked rows lead to the same plan; then it is that plan committed on the locked rows |
| Tables.Store.Preflight | src/memory_base/serve/consolidation/verdicts.py:837-848 | reading and planning decide what the specification decides on the same rows |
| Tables.Store.ApplyVerdict | src/memory_base/serve/consolidation/verdicts.py:854-874 | under the lock: plan again, commit that plan when it is the preflight's, else leave every table as it is and say why |
| Tables.Store.ProcessVerdict | src/memory_base/serve/consolidation/verdicts.py:830-879 | a preflight, any history of other transactions, then the half under the lock are one such step on the rows that history left; every reachable invariant is kept |
| Effects.UndisturbedIsApplied | src/memory_base/serve/consolidation/verdicts.py:837-879 | whatever commits in between, a preflight plan is applied if the namespace's rows, the rows the merged text may take the id of, and the actions of the namespace and the keys are untouched |
| Tables.Store.Write | src/memory_base/serve/consolidation/verdicts.py:763-827 | the active notes afterwards are those before less the archived, plus a created replacement; a survivor is active; a new action row, not undone, records each archived note's metadata as it was; every reachable invariant is kept |
| Tables.Store.Load | src/memory_base/serve/consolidation/verdicts.py:712-755 | the rows a plan reads |
| Reachable.ReplayReturnsRecord | src/memory_base/serve/consolidation/verdicts.py:648-651 | at any later time a replay returns the recorded result as a duplicate and writes nothing, seen in the snapshot or only under the lock |
| Reachable.CapHolds | src/memory_base/serve/consolidation/verdicts.py:685-686 | an applied retire or merge leaves the run's count in the namespace within the batch's cap |
| Runs.StepKeepsActions | src/memory_base/serve/consolidation/verdicts.py:763-827 | no transaction makes two actions share an idempotency key or a group key, or changes a written action but to mark it undone |
| Convergence.KeepShrinks | src/memory_base/serve/consolidation/verdicts.py:687-688 | an applied keep changes no note and strictly shrinks the set of reported groups |
| Convergence.ArchiveShrinks | src/memory_base/serve/consolidation/verdicts.py:763-827 | an applied retire or merge leaves strictly fewer active notes in the namespace |
| Convergence.AlwaysASurvivor | src/memory_base/serve/consolidation/verdicts.py:566-643 | right after any applied verdict all its survivors, at least one, are active |
| Convergence.AppliedShrinks | src/memory_base/serve/consolidation/verdicts.py:837-879 | every applied verdict decreases the pair of active notes and unjudged groups lexicographically |
| Convergence.ConsolidationEnds | src/memory_base/serve/consolidation/verdicts.py:837-879 | with no other writer a namespace of n active notes takes at most (n+1)^2 applied verdicts |
| Tables.Store.UndoAction | src/memory_base/serve/consolidation/verdicts.py:937-985 | refusals in the code's order; otherwise prior metadata back, replacement archived, action marked; undone twice changes nothing |
| Tables.Store.RestorePrior | src/memory_base/serve/consolidation/verdicts.py:969-976 | the restore loop and the replacement's archive together write the specified notes |
| Tables.HasSuccessor | src/memory_base/serve/consolidation/verdicts.py:125-136 | the recursive query finds an active successor exactly when a chain of supersedes links leads to one |
| Runs.AcceptedFindsIntact | src/memory_base/serve/consolidation/verdicts.py:901-934 | an accepted undo finds each archived note exactly as its action left it |
| Runs.UndoIsExact | src/memory_base/serve/consolidation/verdicts.py:901-985 | after any history, an accepted undo gives back each archived note as it was before the action and changes the active notes by exactly those, less the created replacement |
| Runs.DeletedSlugStaysOff | src/memory_base/serve/consolidation/verdicts.py:919-920 | once an entity was deleted after an action, no undo of it that would reattach the slug is accepted, even after the slug is registered again |
| Runs.StepSpoils | src/memory_base/serve/consolidation/verdicts.py:911-920 | whatever a transaction changes on a note archived by an action is visible to that action's undo checks ever after |
| Reachable.UndoAtOnce | src/memory_base/serve/consolidation/verdicts.py:901-934 | at any moment a history reaches, undoing at once is accepted exactly when the action archived something and no trace of an earlier note with the created id is left |
| Reachable.RunStaysBehind | src/memory_base/serve/common/entities.py:61-74 | in every run each slug stamp, on a note or in an action's record, is at most the last stamp taken under the lock |
| Reachable.UndoAtOnceIsIdentity | src/memory_base/serve/consolidation/verdicts.py:937-985 | apply then undo at once, when accepted, is the identity on the active notes |
| Leftovers.UndoAtOnceRefused | src/memory_base/serve/consolidation/verdicts.py:125-136 | a history of six transactions from empty tables (save, superseding save, delete, two saves, merge) after which the merge is applied and its undo refused as superseded |
| Reachable.StepKeepsInv | src/memory_base/serve/notes/store.py:175-323 | every transaction keeps clean active rows, registered slugs, acyclic lineage, sound facts, unique names and unique action keys |
| Reachable.EveryReachableState | src/memory_base/serve/common/entities.py:43-74 | those invariants hold in every state any history reaches |
| InvNotes.StepKeepsRows | src/memory_base/serve/common/entities.py:43-74 | every slug on any note stays registered, no note holds more than ten, active notes carry no archive lineage |
| InvLineage.StepLinksNameActive | src/memory_base/serve/notes/store.py:297-316 | every lineage link a transaction writes leads from an archived note to one active when written |
| InvLineage.StaysAcyclic | src/memory_base/serve/consolidation/verdicts.py:107-113 | links only into notes without links of their own keep the lineage graph acyclic |
| InvLineage.LineageEnds | src/memory_base/serve/notes/curation.py:312-329 | following lineage visits no note twice and stops within the number of notes |
| Tables.Store.SaveNote | src/memory_base/serve/notes/store.py:197-316 | a refusal changes nothing; an accepted save stores at most one note more, active under the content's id, archives a superseded note of the namespace behind an active one, touches no other note and keeps every reachable invariant |
| Effects.SaveAgainChangesNothing | src/memory_base/serve/notes/store.py:101-107 | the same content saved again later is accepted and changes nothing |
| Tables.Store.ArchiveRows | src/memory_base/serve/notes/curation.py:294-309 | exactly the active notes among the ids stop being active, without lineage and such that a restore gives back their rows; the count is by how many the active notes went down |
| Effects.RestoreUndoesArchive | src/memory_base/serve/notes/curation.py:294-329 | archiving active notes and restoring them leaves every table as it was |
| Tables.Store.RestoreRows | src/memory_base/serve/notes/curation.py:312-329 | every named note is active and carries no archive lineage, no other note changes, and every reachable invariant is kept |
| Tables.Store.DeleteNotes | src/memory_base/serve/notes/curation.py:78-105 | exactly the named notes go; every fact stays, none cites a note that is gone, and a current fact stays current exactly when its note stays |
| Tables.Store.LinkEntities | src/memory_base/serve/notes/curation.py:361-414 | all rows are checked first; each note whose set of slugs changes is rewritten and stamped, no other |
| Tables.Store.UpsertEntities | src/memory_base/serve/entities/store.py:147-180 | the refusal is the first of repeated slug, refused item, credential, held name; a refused or dry-run batch changes nothing, an accepted one is written as merged |
| Tables.Store.DeleteEntity | src/memory_base/serve/entities/store.py:183-220 | every holding note loses the slug and is stamped, its facts and the facts naming it go, replacements pointing at them are cleared |
| InvFacts.StepKeepsFacts | src/memory_base/serve/facts/store.py:97-129 | facts name registered entities, stored facts and stored notes, and a current one cites a note, after any transaction |
| InvFacts.StepKeepsNames | src/memory_base/serve/entities/store.py:125-131 | no two entities come to hold one name |
| Tables.Store.ApplyFactOps | src/memory_base/serve/facts/store.py:140-167 | the operations in order, all or none |
| ChunkLoops.BlocksOf | src/memory_base/adapters/document.py:113-147 | the line scanner with its inner fence loop yields the blocks of the line-by-line definition |
| ChunkLoops.PackBlocks | src/memory_base/adapters/document.py:150-165 | the packing loop computes the specified packing |
| ChunkLoops.ParagraphPieces | src/memory_base/adapters/document.py:168-187 | the cutting loop yields the specified pieces |
| ChunkLoops.FencePieces | src/memory_base/adapters/document.py:190-201 | the same for fences |
| ChunkLoops.SplitChunks | src/memory_base/adapters/document.py:204-212 | every chunk over the hard cap is replaced by its pieces |
| ChunkLoops.ResiduePass | src/memory_base/adapters/document.py:215-241 | the index-walking loop, whose index moves back, terminates and settles every chunk as the definition does |
| ChunkLoops.CoveredCharacters | src/memory_base/adapters/document.py:244-259 | the sort and sweep returns the size of the union of the spans, never more than the line length |
| ChunkLoops.ChunkMarkdown | src/memory_base/adapters/document.py:275-286 | accepted chunks have 200 to 2000 characters, pass the gate, are numbered 0 to n-1, and everything dropped is counted |
| ChunkLoops.NothingElseIsLost | src/memory_base/adapters/document.py:275-286 | read as one stream of non-whitespace characters under heading paths the text is the pieces; each piece is kept whole, in order and under its path, or dropped whole, and only pieces below 200 characters are dropped before the gate |
| ChunkFacts.BlocksCarryAll | src/memory_base/adapters/document.py:113-147 | the blocks carry exactly the characters of the text outside heading lines, each under the path in force |
| ChunkFacts.LinesCarryInk | src/memory_base/adapters/document.py:117-117 | splitting a text into lines loses only whitespace |
| ChunkFacts.PackIsGreedy | src/memory_base/adapters/document.py:150-165 | packing never makes a chunk over the soft cap, and no two neighbours under one path would fit together |
| ChunkFacts.ParagraphSplitsClean | src/memory_base/adapters/document.py:168-187 | the pieces with whitespace gaps are the text; two pieces touch only after 2000 characters without whitespace, so no shorter run is cut |
| ChunkFacts.FenceSplitsClean | src/memory_base/adapters/document.py:190-201 | the same at line ends |
| ChunkFacts.EverySplitIsClean | src/memory_base/adapters/document.py:204-212 | every chunk that is split is one block, and is split cleanly |
| ChunkFacts.SettleCarries | src/memory_base/adapters/document.py:215-241 | each chunk is kept whole in order or dropped whole below 200 characters, and the count is zero exactly when nothing was dropped |
| ChunkFacts.SettleSizes | src/memory_base/adapters/document.py:215-241 | everything kept has 200 to 2000 characters |
| Cuts.ShortWordCutExactly | src/memory_base/adapters/document.py:168-212 | a split chunk of any document has a word of at most 2000 characters cut exactly when its text starts with the marker and a forced cut of the fence splitter falls inside such a word |
| Cuts.ParagraphCutExactly | src/memory_base/adapters/document.py:168-212 | a paragraph has such a word cut exactly when its first line is an indented marker and a forced cut falls inside such a word |
| Cuts.BlocksHaveOrigin | src/memory_base/adapters/document.py:113-147 | every block is a fence's lines or a paragraph's stripped lines |
| Cuts.IndentedFenceCutsWord | src/memory_base/adapters/document.py:204-212 | a one-line document whose paragraph has a 100-letter word cut in two, and the second part dropped |
| Jobs.Store.AdmitDocument | src/memory_base/serve/common/job_store.py:143-197 | pruning, both caps and the insert, or no change at all |
| Jobs.Store.AdmitRepo | src/memory_base/serve/common/job_store.py:200-234 | the same with the repo cap |
| Jobs.Store.Claim | src/memory_base/serve/common/job_store.py:237-321 | the fair order over keys, then over jobs, claims the specified job |
| Jobs.Store.MarkTerminal | src/memory_base/serve/common/job_store.py:346-370 | the terminal state of one job |
| Jobs.Store.RecoverAndPrune | src/memory_base/serve/common/job_store.py:396-407 | every unfinished job of the kind is queued, none runs |
| Jobs.EveryRunIsSafe | src/memory_base/serve/common/job_store.py:156-197 | over every run at most one running job a document, at most one running repo job, and all backlogs within their caps |
| Jobs.PassedOverForOlder | src/memory_base/serve/common/job_store.py:246-267 | while its key has nothing running, a waiting job is passed over only for an eligible job no newer than it |
| Jobs.WaitingIsBounded | src/memory_base/serve/common/job_store.py:237-275 | and so fewer times than there were queued jobs no newer than it |
| Spool.Service.Recover | src/memory_base/serve/documents/pipeline.py:236-241 | afterwards no document job runs, the disk holds exactly the files of unfinished jobs, and the unfinished jobs are exactly those that had their file |
| Spool.Service.ResetInterrupted | src/memory_base/serve/documents/store.py:149-173 | exactly the unfinished jobs whose file is missing fail |
| Spool.Service.PruneSpool | src/memory_base/serve/documents/store.py:186-196 | both unlink loops together leave exactly the files of unfinished jobs |
| Spool.Service.RunClaimed | src/memory_base/serve/documents/pipeline.py:226-233 | the terminal state first, then the file, and no other job loses its file |
| Spool.Service.Upload | src/memory_base/serve/documents/routes.py:118-142 | the file stays exactly when the job was admitted |
| Spool.RecoveryIsExact | src/memory_base/serve/documents/pipeline.py:236-241 | however many crashes came before and wherever they hit, a recovery that ends leaves no running document job and exactly the files of unfinished jobs |
| Spool.StepIsIntact | src/memory_base/serve/documents/routes.py:118-142 | a step dooms an unfinished job's file exactly when it is an error raised after the admission committed |
| Spool.FilesLostExactly | src/memory_base/serve/documents/routes.py:118-142 | a run leaves an unfinished document job without its file exactly when a lost admission's file is unlinked, its job unfinished, before a crash |
| Spool.AdmissionLosesFile | src/memory_base/serve/documents/routes.py:118-142 | a run from the start, under any caps that admit a job, that ends with a queued job without its file |
| Spool.EveryPointIsIntact | src/memory_base/serve/documents/pipeline.py:226-241 | without that, at every crash point each unfinished document job has its file, and recovery fails none |
| Rendering.ParseRender | src/memory_base/serve/messages/store.py:191-236 | parsing a rendered message gives back subject, status, result and next lines, verification block and references |
| Rendering.SameContentSaysTheSame | src/memory_base/serve/messages/store.py:204-236 | equal content means equal subject, status, lines and references |
| Rendering.OnlyHeadings | src/memory_base/serve/messages/store.py:204-236 | the only lines that start with a hash sign are the subject, first, and the fixed headings |
| Rendering.SectionsComeBack | src/memory_base/serve/messages/store.py:230-232 | cutting the text at its empty lines gives the sections back |
| Messages.DraftIsValid | src/memory_base/serve/messages/store.py:63-70 | a validated request renders, its subject a single line |
| Messages.Lane.Send | src/memory_base/serve/messages/store.py:322-464 | validate, replay or conflict on a known key, else insert and supersede the chain's open handoffs |
| Messages.Lane.Claim | src/memory_base/serve/messages/store.py:557-580 | succeeds exactly on a pending unexpired message; otherwise the right refusal and no change |
| Messages.Lane.Cancel | src/memory_base/serve/messages/store.py:583-606 | the same for cancelling |
| Messages.Lane.DeleteTerminal | src/memory_base/serve/messages/store.py:630-637 | exactly the terminal messages go, and are counted |
| Messages.EveryRunIsGood | src/memory_base/serve/messages/store.py:358-464 | over every run: at most one end state a message, at most one open handoff a chain and it is the newest, one row per sender and idempotency key |
| Messages.EndsAreFinal | src/memory_base/serve/messages/store.py:557-606 | an end state once entered is never left |
| Messages.OneClaimSucceeds | src/memory_base/serve/messages/store.py:557-580 | at most one claim of a message ever succeeds |
| Messages.OlderSnapshotStaysDown | src/memory_base/serve/messages/store.py:448-463 | a handoff that a newer one of its chain has joined is never pending again |
| Messages.ReplaySaysTheSame | src/memory_base/serve/messages/store.py:467-491 | a replayed row has the requested status and subject although only the content is compared |
| Messages.ResendIsReplay | src/memory_base/serve/messages/store.py:382-408 | while the row is stored, sending again replays it and changes nothing, whatever happened in between |
| Turns.Lane.Append | src/memory_base/serve/turns/store.py:66-120 | the refusals in order, a replay's stored number, or the next number of the session |
| Turns.Lane.Read | src/memory_base/serve/turns/store.py:193-265 | not found exactly when no turn of the session is in a readable namespace; else the session's one namespace, the ordered rows from the offset cut by the caps, and with a query which of them match |
| Turns.UnmatchedIsBesideMatch | src/memory_base/serve/turns/store.py:230-246 | on a page of a query a turn that does not match stands next to one that does |
| Turns.Lane.DeleteSession | src/memory_base/serve/turns/store.py:327-334 | exactly the session's rows go, and are counted |
| Turns.Cut | src/memory_base/serve/turns/store.py:180-190 | at least one row, at most the limit, another only while the characters fit, and the number of the first row left out |
| Turns.CutIsUnique | src/memory_base/serve/turns/store.py:180-190 | those clauses leave only one possible cut |
| Turns.EveryRunIsNumbered | src/memory_base/serve/turns/store.py:66-120 | over every run a session's numbers are 1 to n in one namespace |
| Turns.ReplayChangesNothing | src/memory_base/serve/turns/store.py:79-91 | a replay at any later time answers with the stored number and changes nothing |
| Turns.PagesMakeTheReading | src/memory_base/serve/turns/store.py:193-246 | following next_offset ends, and the pages concatenate to the whole or match-window reading for any limit |
| Turns.WholeSession | src/memory_base/serve/turns/store.py:193-246 | read from the start without a query, a session is its turns numbered 1 to n |
| Quotas.TypeQuotas | src/memory_base/eval/longmemeval.py:113-120 | the loops compute the specified quotas, and fail exactly when the total is zero |
| Quotas.QuotasAddUp | src/memory_base/eval/longmemeval.py:113-120 | the quotas sum to exactly the size |
| Quotas.QuotaIsShare | src/memory_base/eval/longmemeval.py:113-120 | each quota is the floor or ceiling of its exact share, and exact when the share is whole |
| Quotas.RoundedByRank | src/memory_base/eval/longmemeval.py:117-119 | a stratum rounded up precedes every stratum that is not, by remainder, count and name |
| Quotas.OverdrawsExactlyWhenTooLarge | src/memory_base/eval/longmemeval.py:123-135 | some quota exceeds its stratum exactly when the size exceeds the total, so a fitting sample never over-draws |

## Left out

- `move_notes`: it rewrites ids but not the lineage that refers to them; the lineage and undo theorems are about histories without it.
- Embedding, ranking and vector SQL, language-model calls, HTTP routes, tools and hooks: their results are parameters.
- Tables.Store.SaveNote: the ids the similarity query returned are part of the request, so which notes count as similar is not modelled.
- Note metadata that nothing reads back: the session a note came from and the dates kept of merged members.
- Regular expressions: scope normalisation, reference checks, link spans, tokens and credentials are parameters; heading lines are matched by hand.
- A unique-key violation from a concurrent twin (`_idempotency_conflict`, the twin branch of a send, a turn id taken from another session) and a rollback because a replacement appeared: one transaction is one step here.
- `process_batch`'s conversion of an unexpected error into a failed result; a verdict that raises writes nothing and is no event.
- LIKE patterns: a reserved key prefix is a literal prefix.
- Environment settings: the message time-to-live is its default; backlog caps, retention and grouping parameters are parameters.
- `expires_at` parsing, and the two clocks a send reads: one stamp stands for both.
- Turns.Lane.Read: the session's repo and creation times are not returned, and a query below the least length is refused before it.
- Messages.Lane.Send: a malformed request raises one kind of error; its message text is not modelled.
- Rendering.ParseRender: the boundary between command and result inside the verification block is not recovered, because the text does not determine it.
- `select_subset`'s seeded draw and the rest of the evaluation; only what the draw may rely on is stated.
- Job progress counters, the conversion and enrichment inside `run_document_job`, and the rows it publishes.
- Update in place of a chunk list: `ChunkLoops.ResiduePass` reassigns a sequence where the code pops from a list it owns; no one else sees that list.
- Listings, searches, cards, previews and the `current_groups` field of a stale result: reads that decide nothing.
