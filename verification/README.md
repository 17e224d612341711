# Hyperloom: a verified model

Hyperloom keeps a knowledge base (KB) of *Experiences*: immutable records of optimisation attempts. Every KB is the same
service. A local KB pushes what was written to it to a global KB and pulls what the global KB holds; reads see part of
what is stored, as labels, restores and exclusions decide. This project models that core and five neighbours of it, and
proves what they promise over every input, every run and every reachable state. `dafny verify dfyconfig.toml` checks it.

## The system and how it is modelled

**One KB** (`Log`, `KbState`, `KbEffects`, `KbTheorems`, `ExperienceService`). `KbState.Kb` is the database as a value:
the log of records, the files held, the state of each schema (what is outside, what is excluded and why, the history of
exclusions, the current label, the version) and the labels. Each operation is one transaction and one function on it;
`KbEffects` says what each does to what reads see and pushes may send, in every schema. `ExperienceService.Service` is
the service itself, a class over its tables with its sequence counter and its cache of read views, whose methods are
proved to do to the tables what those functions do to the value.

**Replication** (`Sync`, `PushSafety`, `PullSafety`, `PullSteps`, `PullTheorems`, `StoppedPull`, `SyncLoop`, `Binding`,
`Delivery`, `Reception`, `GlobalSync`). `Sync.World` holds both KBs, the ledger, and the batch in progress; `Sync.Next`
is one step of a run: a transaction or a request of the batch, any operation of either KB, a record the global KB pulls
from elsewhere, a rebind, a stop of the process, or another KB answering at the global URL. `GlobalSync.Client` is push,
pull and rebind as written, over the tables of the ledger and the service, and is proved to take exactly these steps;
`SyncLoop` follows whole batches and the client's loop over them to their end. `Binding`, `Delivery` and `Reception` say
what that means for the records: which KB is synced with, that a push delivers and a pull brings in what they should,
and that nothing is refused or rejected without a cause.

**The client's spool** (`Spool`), **the JIT cache transaction** (`JitCache`), **unified diffs** (`UnifiedDiff`,
`PatchManifest`, `GitManifest`, `QuotedPaths`), **the metrics ratchet** (`Ratchet`), and **retrieval over one view**
(`QueryIndex`, `Ranking`, `QueryExecution`, `Rendering`, `KnowledgeRead`, `Lexical`). Beside them `SpoolLaws`,
`JitLaws`, `RatchetLaws`, `RecallLaws`, `RankingLaws` and `LexicalLaws` say what their definitions mean, in terms of
what goes in and what comes out. `Ordering` is the order ids are listed in, `Sorting` sorting by any order and taking
the first, `Prelude` what the modules share.

What the model takes for granted:

- A database transaction is one step, and a push or pull excludes any other (`src/hyperloom_kb/sync.py:64-69`).
- One step each are: an export with the state it is shown under, a pulled record's write with its mark, a record's check
  with its sending, and a record's sending with that of its files. A file that arrived for a record that did not is not
  kept track of.
- Content digests, record ids and spool file names are injective: a digest is modelled as the sets it hashes, and a value
  as its canonical encoding.
- Answers of the network and the file system, time stamps and new label ids are parameters, over all of which the results
  are quantified.
- Scores are real numbers; of the logarithm only that it is not negative from 1 on and, where a result says so, that it
  grows; of the sequence matcher's ratio only that it lies between 0 and 1.

Where the code and its documentation differ, the model follows the code. Five promises do not hold of the code as they
stand; each has a lemma with a concrete case and one with the exact condition:

- A stop between saving a pull's cursor and saving the state its page was shown under (`src/hyperloom_kb/sync.py:451-452`)
  can lose a record for good (`StoppedPull.StopCanLoseARecord`); it is harmless exactly when
  `PullSteps.StopKeepsPullInvIff` says.
- Undoing a restore brings back members and exclusions, but not always the reasons of the exclusions
  (`KbTheorems.UndoCanLoseAReason`, `KbTheorems.UndoKeepsReasonsIff`).
- The record that represents a group of repeats need not be visible when it is the group's first member; then the whole
  read is refused (`KnowledgeRead.FirstMemberCanBeRefused`, and `KnowledgeRead.Read` for exactly when).
- A path that git prints without quotes may end or begin in a blank, and is then read as another path from its file
  headers, or from the line of a rename (`PatchManifest.BlankIsLost`, `GitManifest.MovedNamesLost`, and
  `GitManifest.GitTargets` for exactly when).
- A restore that fails can be tried again, but not when a plain file is in the place of the build: that passes every
  check, and then the restore deletes the modules in scope and fails, whenever it is tried
  (`JitCache.PlainBuildPassesTheChecks`, and `JitCache.Cache.Restore` for exactly when).

## Model

| member | source | states |
|---|---|---|
| `Log.RowsMeaning` | src/hyperloom_kb/http_service.py:802-821 | a stretch of the log yields exactly its matching records, each with its position, ascending |
| `Log.PageIsRange` | src/hyperloom_kb/http_service.py:802-821 | a page is all matching records between its cursor and the next, at most the limit; more is reported exactly when some follow; and then it moved on |
| `Log.PagingIsLossless` | src/hyperloom_kb/http_service.py:802-821 | following the cursor with any page sizes and writes between pages yields each record once, in order, none skipped |
| `Log.PagingReachesTheEnd` | src/hyperloom_kb/http_service.py:802-821 | a last page that reports no more leaves nothing of the log unread |
| `KbState.ApplyKeepsValid` | src/hyperloom_kb/http_service.py:554-617 | every operation keeps the database whole (distinct ids, complete records with their files held, states and labels over stored records) and only adds to log, files and schemas |
| `KbState.RunsKeepValid` | src/hyperloom_kb/http_service.py:490-617 | so does every run |
| `KbEffects.RegisterEffect` | src/hyperloom_kb/http_service.py:459-472 | a new schema starts empty, with nothing excluded, withheld or labelled; a registered one keeps all it has |
| `KbEffects.FilesEffect` | src/hyperloom_kb/http_service.py:512-525 | the files put are held besides those there were, and nothing else changes |
| `KbEffects.WriteEnds` | src/hyperloom_kb/http_service.py:544-617 | how a write ends follows from what the KB holds: invalid, unchanged for the record it has, a conflict for other content, files missing, or created |
| `KbEffects.WriteEffect` | src/hyperloom_kb/http_service.py:554-617 | a created record is the last of the log, reads see it, and a push may send it unless its id was withheld; any other write changes nothing |
| `KbEffects.PushableMeaning` | src/hyperloom_kb/http_service.py:415-433 | a push may send what reads see and nothing withholds |
| `KbEffects.ExcludeEffect` | src/hyperloom_kb/local_state.py:103-113 | an exclude hides the record and no other in any schema, gives it the reason, and withholds it and no other |
| `KbEffects.IncludeEffect` | src/hyperloom_kb/local_state.py:115-130 | an include shows the record and no other in any schema, drops its reason and no other, and releases it and no other |
| `KbEffects.UnknownIsLeftAlone` | src/hyperloom_kb/http_service.py:407-413 | neither does anything for a record that is not stored |
| `KbEffects.LabelEffect` | src/hyperloom_kb/local_state.py:197-233 | a label holds the members and the exclusions with their reasons as they are and becomes current, and reads and pushes are as before; refused exactly for an unknown schema or an id already taken |
| `KbEffects.SaveEffect` | src/hyperloom_kb/local_state.py:235-240 | saving makes such a label exactly when the state differs from its current label, or is not empty without one |
| `KbEffects.DeleteEffect` | src/hyperloom_kb/local_state.py:276-279 | deleting takes that label away and makes none current where it was, and changes nothing else |
| `KbEffects.RestoreEffect` | src/hyperloom_kb/local_state.py:281-311 | a restore releases and withholds nothing, makes the label current, and changes no other schema |
| `KbEffects.BringInEffect` | src/hyperloom_kb/local_state.py:313-319 | reads see those records brought in that are stored under the schema and not excluded, and otherwise what they saw, in every schema |
| `KbTheorems.StoredContentIsImmutable` | src/hyperloom_kb/http_service.py:544-617 | over any run a stored id keeps its content |
| `KbTheorems.ReplayChangesNothing` | src/hyperloom_kb/http_service.py:544-617 | an accepted write sent again at any later time is unchanged and changes nothing |
| `KbTheorems.ReplacedStateIsHeld` | src/hyperloom_kb/local_state.py:197-240 | saving before a change leaves a label that holds exactly the state about to be replaced |
| `KbTheorems.RestoreSucceeds` | src/hyperloom_kb/http_service.py:907-923 | a restore succeeds exactly when the label exists and a state to save has a free id |
| `KbTheorems.RestoreReturnsTheLabel` | src/hyperloom_kb/local_state.py:281-311 | members and exclusions become exactly the label's, the state is unmodified, all else stays |
| `KbTheorems.LabelsPersist` | src/hyperloom_kb/local_state.py:197-224 | a label not deleted keeps its contents through any run |
| `KbTheorems.RestoreCanBeUndone` | src/hyperloom_kb/local_state.py:182-311 | whatever runs in between, the state a restore replaced comes back exactly |
| `KbTheorems.PullCanBeUndone` | src/hyperloom_kb/http_service.py:979-988 | the state a pull's first batch labelled comes back exactly, whatever happened since |
| `KbTheorems.UndoKeepsReasonsIff` | src/hyperloom_kb/local_state.py:34-36 | when a restore, whatever ran since, brings back the reasons of the exclusions too, as an if and only if on the state and the label that saved it |
| `KbTheorems.UndoCanLoseAReason` | src/hyperloom_kb/local_state.py:34-36 | five operations from the empty KB after which it does not |
| `KbTheorems.WithheldUntilIncluded` | src/hyperloom_kb/local_state.py:103-146 | an excluded record stays withheld and unpushable through every operation but its include |
| `KbTheorems.WithheldThroughARun` | src/hyperloom_kb/local_state.py:103-146 | and through every run without one |
| `KbTheorems.IncludeReleases` | src/hyperloom_kb/http_service.py:415-433 | an included record is visible and may be pushed, whatever hid it |
| `KbTheorems.VersionGuardsView` | src/hyperloom_kb/http_service.py:396-405 | an operation that leaves a schema's version leaves what reads see; versions never go back |
| `KbTheorems.ViewStandsWhileVersionStands` | src/hyperloom_kb/http_service.py:632-661 | over any run, equal versions mean equal views, so a view published late is never wrong |
| `KbTheorems.VisibilityChangesMoveTheVersion` | src/hyperloom_kb/http_service.py:588-611 | what changes visibility is a write, exclude, include, restore or bring-in, and moves the version strictly up |
| `ExperienceService.Service.constructor` | src/hyperloom_kb/http_service.py:331-360 | an empty KB |
| `ExperienceService.Service.RegisterSchema` | src/hyperloom_kb/http_service.py:459-472 | registers a schema once, keeping a registered one's state |
| `ExperienceService.Service.PutFile` | src/hyperloom_kb/http_service.py:512-525 | holds a file |
| `ExperienceService.Service.PutAll` | src/hyperloom_kb/sync.py:491-496 | holds every file asked for, taking only the missing ones |
| `ExperienceService.Service.WriteRecord` | src/hyperloom_kb/http_service.py:554-617 | a write over the tables does what it does to the database value, in every outcome; a new record takes the next position |
| `ExperienceService.Service.Insert` | src/hyperloom_kb/http_service.py:588-611 | the new row is the log's last, and both tables name it at the next position |
| `ExperienceService.Service.ReadAfter` | src/hyperloom_kb/http_service.py:802-821 | the loop over the tables returns the page the log defines |
| `ExperienceService.Service.Exclude` | src/hyperloom_kb/local_state.py:103-113 | excludes a stored record; an unknown one is reported and nothing changes |
| `ExperienceService.Service.Include` | src/hyperloom_kb/local_state.py:115-130 | lifts an exclusion, puts the record back into the state, and says whether there was one to lift |
| `ExperienceService.Service.LabelState` | src/hyperloom_kb/local_state.py:197-233 | labels the current state, which becomes the current label |
| `ExperienceService.Service.SaveState` | src/hyperloom_kb/local_state.py:235-240 | labels a state no label holds, and only such a one |
| `ExperienceService.Service.DeleteTag` | src/hyperloom_kb/local_state.py:276-279 | deletes a label and forgets it where it was current; an unknown one is reported |
| `ExperienceService.Service.RestoreState` | src/hyperloom_kb/local_state.py:281-311 | puts outside all stored records the label does not hold and takes its exclusions |
| `ExperienceService.Service.RestoreLabel` | src/hyperloom_kb/http_service.py:907-923 | saves and restores as one operation, or changes nothing |
| `ExperienceService.Service.BringBack` | src/hyperloom_kb/local_state.py:313-319 | puts records back into the state, and moves the version |
| `ExperienceService.Service.View` | src/hyperloom_kb/http_service.py:632-661 | cached or built, a view holds exactly the records reads see now, under the version now |
| `ExperienceService.Service.Build` | src/hyperloom_kb/http_service.py:632-661 | a view built from the tables stands for the state it was built under |
| `ExperienceService.Service.Publish` | src/hyperloom_kb/http_service.py:655-661 | a view built earlier may be cached over any other and the cache stays right |
| `ExperienceService.StandsThroughARun` | src/hyperloom_kb/http_service.py:632-661 | a view that stood stands after any run |
| `PushSafety.SendCovers` | src/hyperloom_kb/sync.py:344-357 | whatever a send ends in, it moves neither cursor nor pulled nor held back, sends that one id, and covers it unless it stops the push |
| `PushSafety.StepKeepsPushInv` | src/hyperloom_kb/sync.py:359-394 | every step keeps the push side whole |
| `PushSafety.PushCoverage` | src/hyperloom_kb/sync.py:359-394 | in every reachable state each record at or before the push cursor was pulled here, is held back, was refused, or was accepted and is noted as on the global KB |
| `PushSafety.StepSendsOnlyOwnPushable` | src/hyperloom_kb/sync.py:371-388 | a step sends at most one record: stored here, visible, not withheld, not pulled |
| `PushSafety.NoEcho` | src/hyperloom_kb/sync.py:102-129 | once pulled, a record is never sent, through rebinds, resets, retries and stops |
| `Reception.TickMarksWhatItStores` | src/hyperloom_kb/sync.py:485-486 | what a batch stores here it marks as pulled, and it marks nothing else |
| `Reception.PulledIsNeverSent` | src/hyperloom_kb/sync.py:102-129 | a record that a pull stores here is sent by no push of any run from then on |
| `Binding.BeginsIff` | src/hyperloom_kb/sync.py:309-328 | a push or pull begins exactly when none is under way and the KB that answers names itself and is the one synced with before, if any; it binds to that KB and changes nothing else |
| `Binding.BoundUntilRebind` | src/hyperloom_kb/sync.py:309-342 | over every run a bound identity changes by a rebind only |
| `Binding.NothingIsSyncedWithAForeignKb` | src/hyperloom_kb/sync.py:309-328 | while another KB answers, no run without a rebind sends anything, brings anything, or changes what is known |
| `Binding.RebindStartsOver` | src/hyperloom_kb/sync.py:330-342 | a rebind forgets all about the global KB but not what was pulled; then any KB that names itself will do, and a push offers every record again |
| `PushSafety.NothingWithheldIsSent` | src/hyperloom_kb/sync.py:371-388 | a withheld record is never sent before its next include, whatever runs |
| `PushSafety.ExcludedIsNotSent` | src/hyperloom_kb/local_state.py:103-146 | the same from the exclude on |
| `PullSafety.ExportMeaning` | src/hyperloom_kb/http_service.py:843-874 | an export's items are exactly the shown records between its cursors, ascending, and its anchors name the records there |
| `PullSteps.TargetIsComplete` | src/hyperloom_kb/sync.py:440-451 | the cursor about to be saved names a record, and every shown record up to it was received or rejected, also after a failure in mid-page |
| `PullSteps.TickKeepsPullInv` | src/hyperloom_kb/sync.py:396-489 | every transaction and request of a batch keeps the pull side whole |
| `PullSteps.StepKeepsInv` | src/hyperloom_kb/sync.py:299-489 | so does every step of a run against a global KB that only adds to its log |
| `PullSteps.StopKeepsPullInvIff` | src/hyperloom_kb/sync.py:451-452 | a stop keeps it exactly when no record the cursor passed is shown under the old state, hidden under the page's, and not handled |
| `PullSteps.StopUnderTheSameState` | src/hyperloom_kb/sync.py:451-452 | so a stop is harmless whenever the page was shown under the state remembered |
| `PullSteps.RunKeepsInv` | src/hyperloom_kb/sync.py:299-489 | and every such run |
| `PullTheorems.PullCompleteness` | src/hyperloom_kb/sync.py:396-489 | in every such run each record at or before the pull cursor that the remembered state shows, and the global KB did not pull itself, is stored here and noted, or was rejected |
| `PullTheorems.FinishedPullIsComplete` | src/hyperloom_kb/sync.py:440-465 | a pull that ends with nothing left, and no local restore since it began, has brought all the global KB exports into the state, or rejected it |
| `PullTheorems.CursorsAreSound` | src/hyperloom_kb/sync.py:413-451 | the saved cursor always names the record at its position, so it is never found lost |
| `PullTheorems.PushCursorOnlyMovesOn` | src/hyperloom_kb/sync.py:427-429 | so the push cursor moves back by a rebind only |
| `PullTheorems.LostCursorStartsOver` | src/hyperloom_kb/sync.py:413-429 | another record, or none, at the cursor makes the pull page from the start and the push offer everything again |
| `PullTheorems.MovedStateStartsOverIff` | src/hyperloom_kb/sync.py:413-423 | a pull with a sound cursor starts over exactly when the global KB's hidden state is not the one remembered |
| `StoppedPull.StopCanLoseARecord` | src/hyperloom_kb/sync.py:451-452 | a run from before the first sync with one stop, after which a pull runs to its end, reports itself complete, and has not brought a record exported to it |
| `SyncLoop.TickWorks` | src/hyperloom_kb/sync.py:359-468 | every step of a batch brings it closer to its end, whatever the network does |
| `SyncLoop.PushBatchRuns` | src/hyperloom_kb/sync.py:359-394 | a completed push batch moved on if it reports more, and reached the end of the log if not; what it leaves held back may not be pushed |
| `SyncLoop.PullBatchRuns` | src/hyperloom_kb/sync.py:396-465 | a completed pull batch moved on if it reports more, and brought everything if not |
| `SyncLoop.PushSettles` | src/hyperloom_kb/remote.py:638-654 | whichever KB answers, the loop ends, and completed leaves every own pushable record accepted or refused |
| `SyncLoop.PushConverges` | src/hyperloom_kb/remote.py:638-654 | the loop ends and keeps the invariant of all runs; completed, every own pushable record is stored on the global KB or was refused |
| `Delivery.DeliverEffect` | src/hyperloom_kb/sync.py:344-357 | the global KB ends up holding a record that is not unwelcome, with its files, and nothing else of its log changes; unwelcome is one that is incomplete, nameless, or whose id has other content there |
| `Delivery.SendEffect` | src/hyperloom_kb/sync.py:344-357 | an answered send of a welcome record leaves it there, noted here and counted as accepted, the very record already there too; an unwelcome one is refused; a denied one is refused and changes nothing there; a dropped one is neither, and stops the batch |
| `Delivery.PushIsFair` | src/hyperloom_kb/sync.py:344-394 | over a whole push, whatever the network does, a record is refused only when a request was denied or the global KB finds it unwelcome |
| `Delivery.AnsweredPushCompletes` | src/hyperloom_kb/remote.py:638-654 | over a network that answers, a push completes |
| `Delivery.PushDelivers` | src/hyperloom_kb/remote.py:638-654 | and then the global KB holds every record that may be pushed and was not pulled, unless it finds it unwelcome or refused it before |
| `Delivery.StoppedPushKeepsProgress` | src/hyperloom_kb/sync.py:382-394 | a push stopped at a record has saved that all before it is done with, and the next one starts with it |
| `Reception.ExportShowsWhatReadsSee` | src/hyperloom_kb/http_service.py:843-874 | an export shows a record exactly when reads of that KB see it and it did not pull it itself |
| `Reception.RemotePullIsNotExported` | src/hyperloom_kb/http_service.py:843-874 | a record the global KB pulls from elsewhere and stores, and no other, is one that it never exports |
| `Reception.ReceiveEffect` | src/hyperloom_kb/sync.py:470-489 | a welcome record is held here and fetched, and marked exactly when it is new here; an unwelcome or denied one is rejected; one whose files are dropped ends the items of the batch and is handled later |
| `Reception.PullIsFair` | src/hyperloom_kb/sync.py:470-489 | over a whole pull, whatever the network does, a record is rejected only when a request was denied or it is unwelcome here |
| `Reception.AnsweredPullCompletes` | src/hyperloom_kb/remote.py:638-654 | over a network that answers, a pull of a schema the global KB has completes |
| `Reception.PullBrings` | src/hyperloom_kb/remote.py:638-654 | and then every record there that reads see and that was not pulled there is stored here and in the state, so that reads here see it unless it is excluded, is unwelcome, or was rejected before |
| `Reception.OnlyRestoresDisturb` | src/hyperloom_kb/local_state.py:281-311 | the exception made there for restores is made for restores only |
| `Reception.PullSavesTheState` | src/hyperloom_kb/sync.py:433-435 | the first batch of a pull leaves a label that holds exactly the state it will change, if there is any, or gives up; a later batch saves nothing |
| `Reception.PullIsUndone` | src/hyperloom_kb/local_state.py:281-311 | whatever the pull and anyone else do after that, restoring the label that holds the state brings back exactly the members and exclusions there were |
| `Reception.PullResumes` | src/hyperloom_kb/sync.py:440-465 | a batch that failed in its page resumes after the last record it handled, another after its page; a pull is in progress exactly when its last batch failed or left more |
| `SyncLoop.ResetOffersAll` | src/hyperloom_kb/sync.py:427-429 | after the push cursor was reset, whatever runs until then, a push that completes has sent every own pushable record again |
| `SyncLoop.LostCursorOffersAll` | src/hyperloom_kb/sync.py:413-429 | so it has after a pull that found its cursor lost, whatever runs in between |
| `SyncLoop.AcceptedIsThere` | src/hyperloom_kb/sync.py:344-357 | what was accepted is stored on a global KB that only adds to its log |
| `SyncLoop.PullConverges` | src/hyperloom_kb/remote.py:638-654 | the loop ends, starting over once at most; completed without a local restore since a batch began, it has brought everything exported |
| `GlobalSync.Client.constructor` | src/hyperloom_kb/sync.py:302-307 | before the first sync all that later runs keep holds, whichever KB answers |
| `GlobalSync.Client.SendRecord` | src/hyperloom_kb/sync.py:344-357 | sending over the tables is the protocol's send, in every outcome |
| `GlobalSync.Client.RetryNext` | src/hyperloom_kb/sync.py:371-379 | one record held back is offered as the protocol offers it |
| `GlobalSync.Client.WalkNext` | src/hyperloom_kb/sync.py:382-392 | one record after the cursor is skipped, held back or sent as the protocol does |
| `GlobalSync.Client.RetryHeldBack` | src/hyperloom_kb/sync.py:371-379 | the loop over what is held back is the protocol's first half of a push |
| `GlobalSync.Client.WalkPage` | src/hyperloom_kb/sync.py:380-394 | the loop over the next records is its second half, with the cursor and report it ends in |
| `GlobalSync.Client.PushBatch` | src/hyperloom_kb/sync.py:359-394 | one push is one batch of the protocol, from the identity check to the report |
| `GlobalSync.Client.PushEverything` | src/hyperloom_kb/remote.py:638-654 | the client's loop ends as the protocol's does and keeps the invariant of all runs; completed, every own pushable record is stored on the global KB or was refused |
| `GlobalSync.Client.FetchPage` | src/hyperloom_kb/sync.py:410-426 | the page a pull starts with, read again from the start when the cursor is lost or the state moved |
| `GlobalSync.Client.Prepare` | src/hyperloom_kb/sync.py:427-433 | resets a lost push cursor and registers the schema |
| `GlobalSync.Client.Begin` | src/hyperloom_kb/sync.py:433-435 | labels the state and brings back what is known to be on the global KB |
| `GlobalSync.Client.Receive` | src/hyperloom_kb/sync.py:470-489 | one exported record is written, rejected or waited for as the protocol does |
| `GlobalSync.Client.ReceiveAll` | src/hyperloom_kb/sync.py:440-448 | the loop over the page stops at the first record that must wait |
| `GlobalSync.Client.Keep` | src/hyperloom_kb/sync.py:449-450 | notes what was fetched and brings it in |
| `GlobalSync.Client.Save` | src/hyperloom_kb/sync.py:451-465 | saves cursor, state and progress, and reports |
| `GlobalSync.Client.PullBatch` | src/hyperloom_kb/sync.py:396-468 | one pull is one batch of the protocol |
| `GlobalSync.Client.ForgetGlobal` | src/hyperloom_kb/sync.py:330-342 | a rebind over the tables is the rebind of the protocol |
| `GlobalSync.Client.PullEverything` | src/hyperloom_kb/remote.py:638-654 | the client's loop ends as the protocol's does; completed without a local restore in between, everything exported was brought |
| `Spool.CopyKeeps` | src/hyperloom_kb/remote.py:443-458 | copying files in loses none held; it fails only for a file this client has no copy of |
| `Spool.FlushKeepsOk` | src/hyperloom_kb/remote.py:464-528 | a flush loses nothing published and keeps exactly the files that the records it leaves name |
| `Spool.NothingPublishedIsLost` | src/hyperloom_kb/remote.py:397-528 | over any run of publishes, flushes and stops, each id published is delivered, still spooled with all its files, or set aside as rejected |
| `Spool.SpooledFilesSuffice` | src/hyperloom_kb/remote.py:324-335 | a spooled record an answering service does not refuse is delivered from the spool's own files |
| `Spool.FlushStopsAsking` | src/hyperloom_kb/remote.py:487-528 | a flush asks an unavailable service once at most; the flag ends set exactly when that happened or nothing was delivered since it was set; otherwise the spool ends empty |
| `Spool.PublishWhileSpooling` | src/hyperloom_kb/remote.py:397-419 | while the flag is set a publish sends nothing, and spools whatever this client has the files of |
| `SpoolLaws.SendMeaning` | src/hyperloom_kb/remote.py:324-335 | a write succeeds exactly when the service answers and this client has each file of the record it then asks for; it may be tried again exactly when the service was away |
| `SpoolLaws.PublishMeaning` | src/hyperloom_kb/remote.py:397-441 | when a publish is sent, spooled or raises, in both directions, and what each does to the spool |
| `SpoolLaws.CopyIsWhole` | src/hyperloom_kb/remote.py:443-458 | copying goes through exactly when every file is there in full or has a source |
| `SpoolLaws.FlushIsFair` | src/hyperloom_kb/remote.py:487-528 | in a flush the answer alone decides; a record leaves the spool only when it was taken, refused or cannot be read, and in the last two cases is set aside unchanged; the files left have not changed |
| `SpoolLaws.FlushDelivers` | src/hyperloom_kb/remote.py:487-528 | when the service answers throughout, a flush delivers all that can be read, empties the spool, and sets aside only what cannot be read |
| `SpoolLaws.FlushWaits` | src/hyperloom_kb/remote.py:487-528 | while the service is away a flush leaves all that can be read, with all its files, and asks once |
| `SpoolLaws.RejectedForCause` | src/hyperloom_kb/remote.py:397-528 | over every run of publishes, flushes and stops, a verdict is what the answer allows, and nothing is set aside unless the service refused it or it cannot be read |
| `SpoolLaws.SpooledFilesAreWhole` | src/hyperloom_kb/remote.py:443-468 | over every such run each record in the spool keeps whole copies of its files, one cut short being made again |
| `Spool.Client.SpoolFiles` | src/hyperloom_kb/remote.py:421-458 | the loop copies files up to the first that is missing |
| `Spool.Client.PublishRecord` | src/hyperloom_kb/remote.py:397-419 | a publish sends, spools or fails as specified |
| `Spool.Client.FlushEntry` | src/hyperloom_kb/remote.py:500-526 | one spool file is sent, kept or set aside as specified |
| `Spool.Client.FlushSpool` | src/hyperloom_kb/remote.py:487-528 | the loop over the spool and the pruning after it are the flush specified |
| `JitCache.RoundTrip` | src/hyperloom_common/aiter_jit_cache.py:159-271 | after an invalidation and any recompilations and failed restores within the build and the scope, a restore gives back the very cache there was |
| `JitCache.TakenIsRestorable` | src/hyperloom_common/aiter_jit_cache.py:214-261 | what an invalidation took passes the restore's checks unless something in the way is a directory or the build is a link |
| `JitCache.PlainBuildPassesTheChecks` | src/hyperloom_common/aiter_jit_cache.py:254-263 | after any invalidation, a plain file in the place of the build passes them, though no restore can succeed |
| `JitLaws.InScopeMeaning` | src/hyperloom_common/aiter_jit_cache.py:116-119 | the modules in scope are the compiled ones whose stem was asked for, or all when none was named |
| `JitLaws.StemMeaning` | src/hyperloom_common/aiter_jit_cache.py:106-113 | a stem is a word character and then word characters, dots and dashes, so it never leads out of the cache |
| `JitLaws.RefusedIff` | src/hyperloom_common/aiter_jit_cache.py:159-184 | an invalidation refuses a bad stem, a module that is no file, a build that is no directory and backups within the build, and nothing else |
| `JitLaws.TakesOnlyWhatWasAskedFor` | src/hyperloom_common/aiter_jit_cache.py:127-196 | the build and the modules asked for are gone from the cache and in the backups and the record; every other entry stays |
| `JitLaws.RestoresWhatWasRecorded` | src/hyperloom_common/aiter_jit_cache.py:214-271 | after a restore the modules in scope are those the record lists, each a file, there is a build exactly when it says so, and all else is as before |
| `JitLaws.OnlyAPlainBuildIsInTheWay` | src/hyperloom_common/aiter_jit_cache.py:254-263 | a restore that passes the checks finds nothing in its way it cannot delete but a plain file in the place of the build |
| `JitCache.Cache.MoveModules` | src/hyperloom_common/aiter_jit_cache.py:140-146 | modules are moved into the backup up to the first that cannot be |
| `JitCache.Cache.ReturnModules` | src/hyperloom_common/aiter_jit_cache.py:148-153 | they are moved back last first; those that stay are in the backup, and without an error none stays |
| `JitCache.Cache.MoveCache` | src/hyperloom_common/aiter_jit_cache.py:127-156 | build and modules are all in the backups and gone from the cache, or what is not back in place is in the backups, and nothing is missing without a rollback error |
| `JitCache.Cache.Invalidate` | src/hyperloom_common/aiter_jit_cache.py:159-196 | a success took all in scope and says so in its record; a failure without rollback errors leaves the cache as it was; what it refuses it refuses before it changes anything, and otherwise it fails only when a step does; other backups stay |
| `JitCache.Cache.Check` | src/hyperloom_common/aiter_jit_cache.py:199-259 | whether record, backups and destination can be restored, in both directions; the record of another cache never can |
| `JitCache.Cache.Clear` | src/hyperloom_common/aiter_jit_cache.py:260-261 | deletes exactly the modules in scope, and when it fails only some of them |
| `JitCache.Cache.RemoveBuild` | src/hyperloom_common/aiter_jit_cache.py:262-263 | deletes the build, and when it fails touches nothing else; a plain file in its place makes it fail, and stays |
| `JitCache.Cache.CopyModules` | src/hyperloom_common/aiter_jit_cache.py:264-266 | copies all saved modules, and when it fails touches nothing outside the scope |
| `JitCache.Cache.Restore` | src/hyperloom_common/aiter_jit_cache.py:235-271 | nothing changes unless all checks pass; a failure changes nothing out of scope and leaves all that the checks ask for, so a later try passes them; a success gives back exactly the backups; without faults it succeeds exactly when no plain file is in the place of the build, and otherwise has deleted the modules in scope, as will every later try |
| `UnifiedDiff.NonGitSections` | src/hyperloom_common/unified_diff.py:250-268 | the loop by the hunk counts returns the sections the line-by-line splitter defines |
| `UnifiedDiff.HeaderParses` | src/hyperloom_common/unified_diff.py:123-126 | a printed hunk header, its counts given or left out when 1, reads back its counts |
| `UnifiedDiff.SplitUndoesPrint` | src/hyperloom_common/unified_diff.py:250-268 | sectioning returns exactly what was printed for each file, in order, whatever the body lines read |
| `PatchManifest.FindSecondName` | src/hyperloom_common/unified_diff.py:204-207 | the loop finds the first split into two names of one path |
| `PatchManifest.PrefixedHeaderName` | src/hyperloom_common/unified_diff.py:182-207 | for every path, spaces included, and any two one-component prefixes, the header names the path under the second |
| `PatchManifest.UnprefixedHeaderName` | src/hyperloom_common/unified_diff.py:182-207 | for every path, the header that names it twice names it |
| `GitManifest.NewNameOf` | src/hyperloom_common/unified_diff.py:187-207 | the same read from a section, quoted or not, with or without prefixes, whatever blanks are in it |
| `PatchManifest.MovedPathsOf` | src/hyperloom_common/unified_diff.py:163-179 | a rename or copy is located by the name it goes to, whatever is around that name |
| `PatchManifest.FileTargets` | src/hyperloom_common/unified_diff.py:210-247 | a printed file patch, its names quoted or not, intends one write, new or not, or one delete, or is an error exactly when a name does not decode or names nothing |
| `PatchManifest.PlainIntended` | src/hyperloom_common/unified_diff.py:210-247 | for names that need no reading it is a write of the new name, new when the old one is no file, or a delete of the old |
| `PatchManifest.NamedIffTrimmed` | src/hyperloom_common/unified_diff.py:157-160 | a file header without quotes names its path exactly when the path neither begins nor ends in a blank |
| `PatchManifest.BlankIsLost` | src/hyperloom_common/unified_diff.py:157-160 | a path where it does not |
| `PatchManifest.GitBlocksUndoConcat` | src/hyperloom_common/unified_diff.py:283-284 | cutting before `diff --git` lines undoes putting sections together |
| `PatchManifest.ManifestIsIntended` | src/hyperloom_common/unified_diff.py:271-287 | the manifest of a printed diff is exactly what its files intend, in order, and an error when one of them intends nothing or text that names no file and is not blank comes first |
| `GitManifest.MovedNames` | src/hyperloom_common/unified_diff.py:163-179 | a rename or copy that git prints names both its sides, each quoted or not, when the name it goes to does not begin in a blank |
| `GitManifest.MovedNamesLost` | src/hyperloom_common/unified_diff.py:163-179 | otherwise the line is cut inside that name, and neither side is the one printed |
| `GitManifest.GitTargets` | src/hyperloom_common/unified_diff.py:210-247 | a section that git prints intends what its patch does: an edit writes, a creation writes a new file, a removal deletes, a rename deletes and writes, a copy writes, each with its mode and with or without changed lines. So it does exactly when a name a file moves to begins in no blank and a name changed lines are read by has none at either end or nothing else; an error when a name it must read does not decode |
| `GitManifest.ModeMeaning` | src/hyperloom_common/unified_diff.py:210-247 | the mode is the permissions, the last four digits of the mode the file gets; without a new one it is empty |
| `GitManifest.GitManifestIsIntended` | src/hyperloom_common/unified_diff.py:271-287 | the manifest of a diff of such sections is what they intend, in order, exactly when each of them reads right, and an error when one intends nothing or text that names no file and is not blank comes first |
| `QuotedPaths.DecodeUndoesEncode` | src/hyperloom_common/unified_diff.py:151-154 | bytes in UTF-8 read back as the text they encode |
| `QuotedPaths.EncodeUndoesDecode` | src/hyperloom_common/unified_diff.py:151-154 | and no other bytes do |
| `QuotedPaths.UnquotePath` | src/hyperloom_common/unified_diff.py:129-154 | the loop over the pieces of a quoted path decodes it as defined character by character, and fails for the same escapes |
| `QuotedPaths.UnquoteUndoesQuote` | src/hyperloom_common/unified_diff.py:129-154 | for every name, unquoting undoes git's quoting, with the characters beyond ASCII escaped or not |
| `QuotedPaths.PathIsReadBack` | src/hyperloom_common/unified_diff.py:129-154 | every path as git prints it, quoted only when it must be, under any prefix, is one the results above speak of and is read back as it was |
| `QuotedPaths.PathsAreIntended` | src/hyperloom_common/unified_diff.py:210-247 | so what a patch of such paths intends names the very paths, under their prefixes |
| `Ratchet.ByIdentity` | scripts/code_metrics.py:271-275 | each key once, under its identity, and nothing else |
| `Ratchet.MatchMoves` | scripts/code_metrics.py:251-268 | exactly the pairs of an identity unique on both sides whose value did not rise; fails exactly when such a pair has an unknown metric |
| `Ratchet.MovesAreUnique` | scripts/code_metrics.py:251-268 | there is one such pairing, and no two units share what one of them moved from |
| `Ratchet.GrantKeeps` | scripts/code_metrics.py:278-297 | a unit not listed has a base unit of its metric and no lower value |
| `Ratchet.GrantIsInjective` | scripts/code_metrics.py:278-297 | and no other unit not listed has the same one |
| `Ratchet.PassingDoesNotGrow` | scripts/code_metrics.py:278-297 | for every metric, the units not listed are no more, and no more in value, than the base had |
| `Ratchet.PassingDoesNotGrowInAll` | scripts/code_metrics.py:278-297 | when nothing is listed, neither the number of units over a limit nor their total value grew |
| `RatchetLaws.FileNameOf` | scripts/code_metrics.py:245-248 | the file name of a path is what follows its last slash |
| `RatchetLaws.IdentityMeaning` | scripts/code_metrics.py:245-248 | a module is recognised after a move by its file name, anything else by its qualified name, within one metric |
| `RatchetLaws.JudgedMeaning` | scripts/code_metrics_report.py:125-129 | without a list of touched files all is judged; with one, those files and the directories they are in |
| `RatchetLaws.ListedIff` | scripts/code_metrics.py:278-293 | told by the two trees alone: worse is a unit of a touched file that grew, new one that neither was there nor moved there, untouched one of either kind in a file not touched |
| `RatchetLaws.NoWorseIsNotListed` | scripts/code_metrics.py:278-293 | a change that makes no unit worse and adds none has nothing held against it |
| `RatchetLaws.ImprovedIff` | scripts/code_metrics.py:294-297 | improved is a judged base unit with a lower value now, where it was or where it moved to, or in neither place |
| `RatchetLaws.NothingListedNothingChanged` | scripts/code_metrics.py:278-297 | when nothing is listed and nothing improved, both trees have as many units and the same total value |
| `Ratchet.Outcome.ListOne` | scripts/code_metrics.py:284-293 | one unit is listed as new, worse or untouched, or not at all, as the base grants it |
| `Ratchet.Outcome.ListAll` | scripts/code_metrics.py:284-293 | each unit the base does not grant is listed once, in its list, in key order |
| `Ratchet.Outcome.ListImproved` | scripts/code_metrics.py:294-297 | each judged base unit that is gone or better is listed once, in key order, with what became of it |
| `Ratchet.Outcome.Compare` | scripts/code_metrics.py:278-297 | so for the whole comparison, with each judged base unit that is gone or better and what became of it, in key order; it fails exactly when it must compare an unknown metric |
| `QueryIndex.AddEntry` | src/hyperloom_kb/query_view.py:375-381 | adds one record at the end of the list of each of its fields and values, and nothing else |
| `QueryIndex.BuildLookup` | src/hyperloom_kb/query_view.py:358-386 | the index lists an id under a field and value exactly when a record with it has them, in id order and, as ids differ, once |
| `QueryIndex.Lookup` | src/hyperloom_kb/retrieval.py:216-235 | the first ids, in id order, of the visible records whose own fields match every clause; a negative limit is an error |
| `QueryIndex.ExactQuery` | src/hyperloom_kb/query_view.py:340-386 | built and restricted, a view answers as a scan of its records |
| `QueryIndex.LookupMeaning` | src/hyperloom_kb/query_view.py:358-386 | a record is found under its schema, objective and status, its identity, and of the other categories what is declared |
| `QueryIndex.ScanMeaning` | src/hyperloom_kb/query_view.py:340-386 | a scan finds the visible records of which every clause holds, and no others |
| `Ranking.ContributionIsBounded` | src/hyperloom_kb/knowledge_read.py:915-970 | a contribution lies between 0 and its signal's weight |
| `Ranking.ContributionMeaning` | src/hyperloom_kb/knowledge_read.py:915-970 | it is the score, taken as 1 when exact or missing and cut to between 0 and 1, times the weight of the signal |
| `Ranking.BetterMatchContributesMore` | src/hyperloom_kb/knowledge_read.py:915-970 | under one signal the better score contributes more |
| `Ranking.PerSignalLoop` | src/hyperloom_kb/knowledge_read.py:993-998 | the loop keeps the best contribution of each signal |
| `Ranking.ScoreIgnoresOrder` | src/hyperloom_kb/knowledge_read.py:990-999 | the score depends on which contributions there are, not on their order |
| `Ranking.ScoreIsMonotone` | src/hyperloom_kb/knowledge_read.py:990-999 | more hits never lower it |
| `Ranking.ScoreIsBounded` | src/hyperloom_kb/knowledge_read.py:990-999 | it lies between 0 and the sum of the plan's weights |
| `Ranking.OneSignalScore` | src/hyperloom_kb/knowledge_read.py:990-999 | a group hit under one signal scores its best contribution, one of those it has |
| `Ranking.ScoresAddUp` | src/hyperloom_kb/knowledge_read.py:990-999 | contributions under different signals add up |
| `Ranking.BuildGroups` | src/hyperloom_kb/query_view.py:443-461 | the loop files each record under its key, in order |
| `Ranking.GroupsPartition` | src/hyperloom_kb/query_view.py:443-461 | each record is a member of exactly the group it is filed under |
| `QueryExecution.Find` | src/hyperloom_kb/knowledge_read.py:932-956 | what a signal finds is the first matching visible records by id, or what a provider that is ready offers of the visible ones under the capability asked for, up to the limit |
| `QueryExecution.FoundIsVisible` | src/hyperloom_kb/retrieval.py:237-259 | whatever a provider offers, only visible records are found |
| `RecallLaws.TextFinds` | src/hyperloom_kb/knowledge_read.py:934-960 | a text finds what a ready provider offers of the visible records under that capability, with its score, up to the limit; without such a provider the capability is unavailable |
| `RecallLaws.ClauseFinds` | src/hyperloom_kb/retrieval.py:216-235 | a field and value find, without a score, the visible records that have it, all of them up to the limit |
| `RecallLaws.KeptConcat` | src/hyperloom_kb/retrieval.py:237-259 | offers are kept one by one in the order offered |
| `RecallLaws.ContributedIff` | src/hyperloom_kb/knowledge_read.py:862-913 | a plan recalls every match of every signal through each configured capability that suits it, exact for fields, fuzzy and semantic for texts, and nothing else |
| `QueryExecution.WeighAll` | src/hyperloom_kb/knowledge_read.py:896-913 | exactly the records found contribute, and each is a hit weighted by what it contributes |
| `QueryExecution.RecallSignal` | src/hyperloom_kb/knowledge_read.py:871-912 | a signal is recalled through exactly the capabilities that fit it, are configured and available, and these are noted as executed, the others as unavailable |
| `QueryExecution.RecallPlan` | src/hyperloom_kb/knowledge_read.py:862-913 | the contributions are exactly those of the plan's signals so recalled, every hit is visible, and what was executed and what was unavailable is listed in the order tried |
| `QueryExecution.Organize` | src/hyperloom_kb/retrieval.py:261-296 | one candidate for each group hit, in key order, with all its members and exactly its hits, as often as there are, in order |
| `QueryExecution.FirstHit` | src/hyperloom_kb/knowledge_read.py:1000-1010 | the hit no other goes before, by score and then id |
| `QueryExecution.RankOne` | src/hyperloom_kb/knowledge_read.py:988-1028 | a group's score is that of its members' contributions, which are listed best first, and its representative is as the policy says |
| `RecallLaws.BestFirst` | src/hyperloom_kb/knowledge_read.py:988-1028 | a group lists exactly the contributions of its members, best first, and is represented by its best match, of several the one with the least id |
| `Sorting.SortSorts` | src/hyperloom_kb/knowledge_read.py:1038-1041 | whatever is sorted comes back, as often as it was, in order |
| `QueryExecution.TopGroupsAreTrue` | src/hyperloom_kb/knowledge_read.py:1038-1085 | as many as asked for, in order, and none left out goes before one returned |
| `RankingLaws.PolicyMeaning` | src/hyperloom_kb/knowledge_read.py:1038-1085 | which of two groups comes first under each policy, the group key deciding what is otherwise equal |
| `RankingLaws.MaxAmountIsMax` | src/hyperloom_kb/knowledge_read.py:1044-1085 | the best hit is one of the group and none is better |
| `RankingLaws.FirstPriorityIsFirst` | src/hyperloom_kb/knowledge_read.py:1044-1085 | the first capability is one of the group and none goes before it |
| `RankingLaws.PrioritiesAscend` | src/hyperloom_kb/knowledge_read.py:1044-1085 | exact goes before filter, filter before fuzzy, fuzzy before semantic |
| `QueryExecution.RankGroups` | src/hyperloom_kb/knowledge_read.py:973-1041 | every candidate is ranked and the first are returned; an unsupported policy is an error |
| `QueryExecution.RepresentativeIsMember` | src/hyperloom_kb/knowledge_read.py:1000-1010 | a representative belongs to its group and, matched first, is visible |
| `QueryExecution.RepresentativesDiffer` | src/hyperloom_kb/knowledge_read.py:1000-1010 | no two groups have the same one |
| `QueryExecution.Execute` | src/hyperloom_kb/knowledge_read.py:810-860 | over a view and whatever its providers offer, a plan's result is the first of all groups hit as ranked by what was recalled: in order, within the limit, with bounded scores and distinct representatives of their groups, visible when matched first; and the capabilities executed and unavailable, each once |
| `RankingLaws.BetterMatchComesFirst` | src/hyperloom_kb/knowledge_read.py:810-860 | of two groups a text finds through the fuzzy provider, the one with the better score is returned first, each with that share of the weight of the signal |
| `Rendering.Show` | src/hyperloom_kb/retrieval.py:327-337 | a block is shown exactly when it fits behind those shown before it, and the text never exceeds the budget |
| `Rendering.AllFitAllShown` | src/hyperloom_kb/retrieval.py:327-337 | when all blocks together fit the budget, or there is none, all are shown |
| `Rendering.Render` | src/hyperloom_kb/retrieval.py:298-342 | whole blocks in order within the budget, refs naming exactly those shown; refused exactly for a budget that is not positive or a record not visible, missing or changed |
| `KnowledgeRead.BuildView` | src/hyperloom_kb/query_view.py:279-337 | a view of stored records is whole: its index answers as a scan, its groups partition its records, in id order |
| `KnowledgeRead.Restrict` | src/hyperloom_kb/query_view.py:338-355 | a narrowed view is whole too, shows exactly what was shown and is allowed, and is otherwise the same, with the groups of the whole corpus |
| `KnowledgeRead.NotAcceptedIff` | src/hyperloom_kb/knowledge_read.py:810-860 | a read does not start for a plan of another schema, a pinned provider that is missing or another one, or an unsupported policy, and for nothing else |
| `KnowledgeRead.Read` | src/hyperloom_kb/knowledge_read.py:810-860 | a read fails exactly for a plan or pinned provider that does not match, an unsupported policy, a budget that is not positive, a representative whose record is gone or changed, or one that is the hidden first member of its group; otherwise it shows whole records, in the order of the groups, within the budget |
| `KnowledgeRead.FirstMemberCanBeRefused` | src/hyperloom_kb/knowledge_read.py:1005-1009 | a plan and a narrowed view for which the last of these happens, whatever the store holds |
| `Lexical.CountDocuments` | src/hyperloom_kb/retrieval_policy.py:281-291 | how many documents hold each word, never more than there are |
| `Lexical.RarityIsPositive` | src/hyperloom_kb/retrieval_policy.py:428-429 | so each word counts at least 1 |
| `LexicalLaws.RarerCountsMore` | src/hyperloom_kb/retrieval_policy.py:428-429 | a word that fewer documents hold counts more, one that all hold counts 1 |
| `LexicalLaws.CountsMentions` | src/hyperloom_kb/retrieval_policy.py:281-291 | the count of a word is the number of documents that mention it |
| `LexicalLaws.FieldWeightIsHeaviest` | src/hyperloom_kb/retrieval_policy.py:293-307 | a word weighs in a document what the heaviest field that holds it does |
| `Lexical.MatchIsBounded` | src/hyperloom_kb/retrieval_policy.py:293-307 | what a document matches weighs at most the whole query at the top weight |
| `Lexical.ScoreAtIsFraction` | src/hyperloom_kb/retrieval_policy.py:308-313 | so every score lies between 0 and 1 and the clamp of the ranking never changes it |
| `LexicalLaws.CoverageEnds` | src/hyperloom_kb/retrieval_policy.py:293-313 | a document that holds no word of the query covers nothing of it, one that holds every word at the top weight all of it |
| `LexicalLaws.ScoreMeaning` | src/hyperloom_kb/retrieval_policy.py:308-313 | coverage is worth 0.9 of a score and likeness of the summary 0.1; a document that contradicts the query keeps a tenth |
| `LexicalLaws.CompatibilityMeaning` | src/hyperloom_kb/retrieval_policy.py:436-457 | a document is marked down exactly when it and the query both name model sizes, or both name GPUs, and none in common |
| `LexicalLaws.KindsOfWord` | src/hyperloom_kb/retrieval_policy.py:436-457 | model sizes are digits and a b, GPUs mi, digits and an x, and no other words are |
| `LexicalLaws.HeavierScoresMore` | src/hyperloom_kb/retrieval_policy.py:293-313 | of two documents as compatible and as like the query, the one in which its words weigh more scores more |
| `Lexical.ScoreAll` | src/hyperloom_kb/retrieval_policy.py:268-320 | the documents with a positive score, and no others, each once with its score in (0, 1] |
| `Lexical.Recall` | src/hyperloom_kb/retrieval_policy.py:268-329 | of these the best, as many as asked for or all, by score and then id, and none left out goes before one returned |

## Left out

- HTTP handling, authentication, logging, metrics, process lifecycle, SQL text and drivers: plumbing around the modelled logic.
- Declaration validation, JSON, hashing, UUIDs, tokenisation, query planning by a model, annotations of repeat groups: one-branch checks, foreign code or injective encodings.
- Sync: interleavings inside one export, stops between a pulled record's write and its mark, and files that arrived for a record that did not; they are single steps here.
- GlobalSync.Client.PushEverything: does not model the tallies the client adds up over batches, nor the label it reports as saved.
- GlobalSync.Client.PullEverything: the same tallies.
- Spool: several clients on one spool directory, and spool files damaged after they were written.
- JitCache: symbolic links beyond the checks, permissions, and moves across devices that fail half done; the cache and the backups are taken to lie apart.
- Unified diffs: binary patches, whose data lines are not modelled; other headers than those git prints for a file; blanks beyond ASCII at the ends of names that git prints without quotes.
- KnowledgeRead.Read: does not model leases on views or the time it reports.
- Ranking.PerSignalLoop: scores that are not finite numbers, which the code refuses.
