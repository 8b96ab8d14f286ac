# Verified model of OME's shared artifacts, task coordinator and chart factoring

This project models the parts of OME whose guarantees span many steps, and proves those guarantees for
every input, every run and every reachable state.

**Shared Hugging Face artifacts** (`pkg/modelagent/hf_artifact_*.go`, `configmap_reconciler.go`). One
directory per model and commit is shared by many child models through symlinks. Ownership lives in one
ConfigMap; each change is one compare-and-swap, several agents interleave, crash and lose responses.

- `HfTypes`, `HfRepository`: the records and the mutations, each as the function one commit applies.
- `HfConfigMap`: the same mutations as code that edits the records in place, loops included; the class
  invariant is the one every run keeps.
- `HfRuns`: runs of committed mutations: two-sided references, exclusive roles, lock fencing, and what
  survives a record created from a stale reading.
- `HfOwnership`: who can end an intent, a receipt or a reference, and what the next mutation of its task then
  meets.
- `HfRepair`: child statuses through any number of repair cycles.
- `HfProtocol`, `HfProtocolProof`, `HfSafety`: the handlers as a state machine over records, directories,
  markers and symlinks under the advisory parent lock, with a crash possible between any two steps.
- `HfProgress`, `HfLeaving`: where a task left alone ends: a model attached over a complete copy, or gone with
  its link and, if nobody needs them, its files.
- `HfHistories`: every history of the handlers as a run of mutations, and when Ready stands over an
  incomplete copy.
- `HfDeletion`: one child's deletion, stopped and rerun any number of times, with its UID handed over.
- `HfSiblings`, `HfLateRemoval`: the deletions of two children of one directory, each stopped and rerun, in
  any interleaving.
- `HfCache`, `HfRecovery`: the in-process caches and the rebuild of a lost ConfigMap.
- `HfRebuild`: which committed references come back after a loss, and which UID is heard.
- `HfAgent`: one process with its caches on the shared ConfigMap, step by step: preparatory restore,
  UID checks, mutation, commit, and losses and other processes in between.

**Task coordination** (`gopher_task_tracker.go`, `gopher_task_queue.go`). `TaskTracker` and `TaskQueue`
are the classes; `TaskRuns` and `QueueRuns` speak about whole admission and queueing histories, and
`TaskVerdicts` derives every verdict from what was asked and answered before.

**CRD factoring** (`cmd/crd-gen/helmchart.go`). `HelmChart` replaces repeated subtrees by nested partials;
`HelmPlaces` says what repeated means.

**Smaller cores.** `Cleanup` (reference-preserving removal), `AuthoredOrder` (inheritance order with
cycles), `SamePath` (who waits for whom on one path). `Lexical` is Go's string order; `Maps` compares
maps entry by entry.

Two kinds of specification recur. A class method is proved equal to a function of the old state, and
the lemmas are about that function. A protocol is a step function together with an invariant that every
step keeps; its theorems quantify over explicit histories of states. Beside them stand the conditions under
which a mutation succeeds, a verdict falls or a task reaches its end.

Where a promise does not hold as it is usually put, the model keeps the code and the condition is exact:

- A Ready parent always has its marker and never an unfinished download (`ReadyIsNeverUnfinished`). It is
  a complete copy as long as no removal in its own directory was stopped with the marker left behind
  (`ReadyIsComplete`). Step by step, a record becomes Ready over an incomplete copy exactly when a
  deletion of a formerly Ready parent is ended over partly removed files with the marker still there
  (`ReadyOverRemainsIff`); `StoppedRemovalIsPublishedIff` is such a run.
- A download task reads the parent's record before it takes the parent's file lock, and falls back to
  that reading if the record is gone under the lock. Creating a record keeps references two-sided exactly
  if what was read lists no child (`CreationKeepsReferencesIff`). In every history of the handlers a new
  record lists children exactly if a repair acquired such a stale reading (`NewRecordsListChildrenIff`);
  that happens whenever the parent had children when it was read and was deleted before the lock was
  taken (`StaleRepairBreaksReferences`). Until then references stay two-sided (`ReferencesStayTwoSided`);
  the file-level theorems do not depend on it. Writing Deleted as an ordinary status keeps references
  two-sided exactly if the model is unattached (`DeletedStatusKeepsReferencesIff`).
- Interrupted and uninterrupted deletions end in the same records and files up to the number of the last
  completed lock (`EveryFinishIsTheSame`, `RerunLeavesAnotherNumber`).
- Two deletions in one directory end in the same records and files in every interleaving, exactly if it is
  not so that nobody else is recorded in the directory or needs it and just one of the two paths has another
  consumer, its link is missing and its own deletion has not begun (`HfLateRemoval.OrderDecidesIff`). There
  the directory stays if that model is deleted last (`KeptLast`) and goes if it is deleted first
  (`KeptFirst`); `LostLinkIsDecidedByOrder` is such a case.
- A lost record of an attached model comes back two-sided exactly if the caches hold both sides of the
  reference as the parent lists it and nobody owns the parent (`LostRecordComesBackIff`).
- From its invalidation on, no step carrying a UID changes a record or a cache, except that it may write
  back lost records that the caches hold, as any other mutation does first (`InvalidatedUidIsPowerless`).
- Waiting on a shared path is free of cycles exactly if no model without creation time is caught between
  two dated ones in key order (`CycleFreeIff`).
- An inheritance parent precedes its child, unless both are on one cycle; then key order decides
  (`ParentComesFirstIff`).
- On trees, expanding the factored schemas gives the input exactly if no text of the input starts with the
  include marker and in no list element the value of the first key becomes a partial: there the include
  lands beside the key, which is left without value (`ExpandingYieldsTheInputIff`). If no key and no text
  holds the marker, nothing is refused, and only the second condition remains (`ExpandingYieldsTheInput`).
  It fails wherever one large subtree is the only field of two elements of a list, as in two `not` branches
  of an `anyOf` (`TwoAlternativesAreLost`).

## Model

| member | source | states |
|---|---|---|
| `HfRuns.StepKeepsInv` | pkg/modelagent/hf_artifact_repository.go:149-512 | every mutation, by any caller, keeps: a child names a parent exactly when that parent lists it; attached, download-pending and deletion-pending exclude each other; a lock ID implies Updating without completion receipt, and Updating has an owner or a receipt; saved statuses belong to listed children and a Ready parent has none |
| `HfRuns.RunKeepsInv` | pkg/modelagent/hf_artifact_repository.go:285-512 | the same in every reachable state of every run of mutations, model writes and final removals included |
| `HfRuns.CreationKeepsReferencesIff` | pkg/modelagent/hf_artifact_repository.go:164-177 | creating a parent record keeps references two-sided if and only if the caller's snapshot lists no child |
| `HfRuns.StaleSnapshotCreatesOneSidedRecord` | pkg/modelagent/hf_artifact_repository.go:164-177 | a record read before its last child was removed and it was deleted, then acquired for repair, is created anew listing a child that does not name it |
| `HfRuns.StepKeepsSane` | pkg/modelagent/hf_artifact_repository.go:149-512 | whatever record an acquisition starts from, every mutation keeps: a child that names a parent is listed by it, roles are exclusive, locks well-formed, saved statuses those of listed children |
| `HfRuns.DeletedStatusKeepsReferencesIff` | pkg/modelagent/configmap_reconciler.go:685-692 | writing Deleted as a status keeps references two-sided if and only if the model is not attached |
| `HfRuns.OnlyOwnerDecides` | pkg/modelagent/hf_artifact_repository.go:236-279 | a held lock survives every mutation that does not present its ID |
| `HfRuns.DecidedOnceByItsOwner` | pkg/modelagent/hf_artifact_repository.go:236-279 | in every run each lock is ended at most once, and by a mutation presenting its ID |
| `HfRuns.StaleOwnerChangesNothing` | pkg/modelagent/hf_artifact_repository.go:244-259 | after a lock was decided, nothing presented under it, whatever it asks for, changes any record in any later state |
| `HfRuns.ReleaseIsRepeatable` | pkg/modelagent/hf_artifact_repository.go:245-250 | repeating a completed release with the same outcome succeeds and changes nothing |
| `HfRuns.OwnedRunFreezesChildren` | pkg/modelagent/hf_artifact_repository.go:305-407 | between any two states of a run in which the same owner holds a parent, its child set does not change |
| `HfOwnership.RememberedAttachesIff` | pkg/modelagent/hf_artifact_repository.go:285-349 | once a task's intent is recorded, attaching its model to the Ready parent succeeds if and only if no other parent has the model and this one does not list it under another path |
| `HfOwnership.DetachedResumes` | pkg/modelagent/hf_artifact_repository.go:367-479 | detaching an attached model for deletion leaves a receipt whose deletion can be resumed |
| `HfOwnership.IntentEndsByItsTask` | pkg/modelagent/hf_artifact_repository.go:316-319 | in every run an intent that is gone was consumed by the reference of its own UID, path and directory, turned into the receipt by a mutation naming it, or went with the model |
| `HfOwnership.ReceiptEndsByItsTask` | pkg/modelagent/hf_artifact_pending_deletion.go:63-278 | in every run a receipt that changed was claimed, owned or finished by a mutation presenting it, or went with the model |
| `HfOwnership.ReferenceEndsByItsTask` | pkg/modelagent/hf_artifact_repository.go:357-479 | in every run a reference that is gone was removed by a mutation naming parent, model and path under an unblocked UID, or went with the model |
| `HfRepair.StepKeepsEffective` | pkg/modelagent/hf_artifact_repository_repair.go:15-57 | the status a child will show once its parent is Ready changes only by an ordinary write to that child, its detachment or its removal |
| `HfRepair.OwnRecordKnowsChildren` | pkg/modelagent/hf_artifact_repository_repair.go:107-122 | a record read at any time under a lock still lists exactly the current children when its owner publishes Ready |
| `HfRepair.ReadyShowsIntended` | pkg/modelagent/hf_artifact_repository.go:257-277 | in every run, whenever the parent is Ready an attached child shows what committed ordinary writes last gave it, through any failed or interrupted repairs |
| `HfRepair.RepairRestoresStatus` | pkg/modelagent/hf_artifact_repository_repair.go:91-103 | without such writes it shows the status it had before the first repair |
| `HfRepair.NewerStatusIsNotRolledBack` | pkg/modelagent/hf_artifact_repository_repair.go:34-38 | a release never changes a child whose status is not Failed |
| `HfConfigMap.ConfigMap.Acquire` | pkg/modelagent/hf_artifact_repository.go:149-213 | the lock passes exactly if the path is the identity's own, nobody holds the record, and it is missing, moved, not Ready or to be repaired; under a number nobody held before, children and saved statuses kept; without acquisition nothing changes and the record is Ready or owned; every other record and all children stay |
| `HfConfigMap.ConfigMap.ChildStatusesToRestore` | pkg/modelagent/hf_artifact_repository_repair.go:91-103 | exactly the saved statuses of children that still match on both sides and are still Failed |
| `HfConfigMap.ConfigMap.WriteStatuses` | pkg/modelagent/hf_artifact_repository.go:262-271 | exactly the given children get the given statuses |
| `HfConfigMap.ConfigMap.SetParentStatus` | pkg/modelagent/hf_artifact_repository.go:236-279 | MarkReady, MarkFailed and MarkInterrupted: afterwards the record has the status, no owner and the receipt of this one; it succeeds exactly for the holder of the lock or the repetition of its completed release; only the holder changes anything, and never the child set |
| `HfConfigMap.ConfigMap.AddReference` | pkg/modelagent/hf_artifact_repository.go:285-349 | succeeds exactly if the parent is Ready at that path, the model has a record without receipt, its intent, if any, is this very task's, no other parent has the model and the parent does not list it under another path; afterwards both sides of the reference are there and the intent is consumed, the model's status kept; every other record stays; a blocked UID changes nothing |
| `HfConfigMap.ConfigMap.RemoveReference` | pkg/modelagent/hf_artifact_repository.go:367-479 | both sides of a reference are gone, exactly if the parent lists the model under that path and nobody holds it; the last removal takes the lock of a record nobody held under a new number; the receipt names that lock and the status the record had; every other record stays |
| `HfConfigMap.ConfigMap.DeleteUnreferenced` | pkg/modelagent/hf_artifact_repository.go:484-512 | a record goes exactly for the holder of its lock if it lists no child, and no model anywhere names it afterwards |
| `HfConfigMap.ConfigMap.FailChildren` | pkg/modelagent/hf_artifact_repository_repair.go:15-57 | succeeds exactly for the holder of the lock, which stays held: every attached child the holder knew is Failed with its status saved, an older saved one kept where the child was still Failed; every other child is as it was and every other parent too, in a store every run could reach |
| `HfConfigMap.ConfigMap.FailEach` | pkg/modelagent/hf_artifact_repository_repair.go:31-50 | the loop over the children, in any order |
| `HfConfigMap.ConfigMap.Remember` | pkg/modelagent/hf_artifact_pending_download.go:33-57 | succeeds exactly if the model has a record without receipt and is attached to a known parent or holds no other intent; afterwards it is attached on both sides, with nothing changed, or holds exactly this intent; no other record changes |
| `HfConfigMap.ConfigMap.ScanIntents` | pkg/modelagent/hf_artifact_pending_download.go:119-138 | true exactly if some child intends to download into this directory |
| `HfConfigMap.ConfigMap.AbandonIntent` | pkg/modelagent/hf_artifact_pending_download.go:81-115 | afterwards the model holds the intent's receipt and no intent; only that exact intent is converted, for its own unblocked UID or a proven current one; repeating it changes nothing |
| `HfConfigMap.ConfigMap.ClaimDeletion` | pkg/modelagent/hf_artifact_pending_deletion.go:63-106 | the exact receipt passes to a proven current UID exactly if the parent is gone, free, held by the receipt's own lock, or moved while the old directory is absent; nothing else changes |
| `HfConfigMap.ConfigMap.OwnDeletion` | pkg/modelagent/hf_artifact_pending_deletion.go:153-223 | afterwards an unused parent is held by the lock the stored receipt names, and nobody names the parent; a new lock is taken only of a record nobody held, and the receipt keeps its status |
| `HfConfigMap.ConfigMap.FinishDeletion` | pkg/modelagent/hf_artifact_pending_deletion.go:260-278 | afterwards the model holds no receipt and is otherwise as it was; only the expected receipt is cleared |
| `HfConfigMap.ConfigMap.ValidateChildMutation` | pkg/modelagent/hf_artifact_recovery.go:203-230 | allowed exactly if every parent that lists the model is named by it and the stored record shows every reference, intent and receipt that the cached one does |
| `HfConfigMap.ConfigMap.UpdateStatus` | pkg/modelagent/configmap_reconciler.go:671-730 | the model shows the status and keeps its reference, intent and receipt; Ready only if unattached or listed by a Ready parent; references stay two-sided unless an attached model is written Deleted |
| `HfConfigMap.ConfigMap.RemoveEntry` | pkg/modelagent/configmap_reconciler.go:391-410 | afterwards no record of the model is left and no parent lists it |
| `HfConfigMap.AcquiresIff` | pkg/modelagent/hf_artifact_repository.go:149-213 | when an acquisition is answered and when it is granted, the repair case included |
| `HfConfigMap.ReleasesIff` | pkg/modelagent/hf_artifact_repository.go:236-279 | a release succeeds if and only if the caller holds the lock, or its lock was the last one completed and with the same outcome |
| `HfConfigMap.AttachesIff` | pkg/modelagent/hf_artifact_repository.go:285-349 | in every store, reachable or not, a reference is added if and only if the parent is Ready there, the model has no receipt and no other intent, and no other parent or path has it |
| `HfConfigMap.DetachesIff` | pkg/modelagent/hf_artifact_repository.go:367-479 | a reference is removed if and only if the parent lists it under that path and nobody holds the parent |
| `HfConfigMap.RemembersIff` | pkg/modelagent/hf_artifact_pending_download.go:33-57 | an intent is recorded if and only if the model has a record without receipt, and is attached to a known parent or holds no other intent |
| `HfConfigMap.AbandonsIff` | pkg/modelagent/hf_artifact_pending_download.go:81-115 | an intent becomes a receipt if and only if it or its receipt is there and the UID is its own and not blocked, or proven current |
| `HfConfigMap.ResumesIff` | pkg/modelagent/hf_artifact_pending_deletion.go:63-258 | a receipt is claimed or its deletion owned if and only if the parent is gone, free, held by the receipt's lock, or moved with the old directory absent |
| `HfConfigMap.WritesIff` | pkg/modelagent/configmap_reconciler.go:671-730 | a status is written if and only if no parent lists a model that does not name it, the store shows what the cache knows, and Ready stands under a Ready parent |
| `HfConfigMap.FieldWrites` | pkg/modelagent/configmap_reconciler.go:733-781 | writing metadata or progress changes that field of that model and nothing else; a new record has no shared state |
| `HfProtocolProof.MarkerProvesWhole` | pkg/modelagent/hf_artifact_files.go:165-171 | if the marker matches the lock on the record, the copy is complete |
| `HfProtocolProof.ReleaseDeletionKeeps` | pkg/modelagent/hf_artifact_delete.go:151-159 | giving a parent back from deletion, heard or lost, publishes Ready only over a marker and no unfinished download |
| `HfProtocolProof.AcquireLostKeeps` | pkg/modelagent/hf_artifact_download.go:86-94 | an acquisition whose response was lost keeps the invariant and leaves the owner for a later release |
| `HfProtocolProof.RecoverInterruptedKeeps` | pkg/modelagent/hf_artifact_startup.go:199-221 | turning an abandoned owner without receipt into a retryable one keeps the invariant |
| `HfSafety.FreshSystemIsFine` | pkg/modelagent/configmap_reconciler.go:420-456 | any store without shared relationships satisfies the invariant, whatever links exist |
| `HfSafety.ActKeeps` | pkg/modelagent/hf_artifact_download.go:11-218 | each of the forty-four steps, crashes and model writes included, keeps the invariant of every identity; where these steps lead is stated by `HfProgress` and `HfLeaving` |
| `HfSafety.HistoryKeepsInv` | pkg/modelagent/hf_artifact_file_lock.go:70-109 | so does every interleaved history under the parent locks |
| `HfSafety.ReadyIsNeverUnfinished` | pkg/modelagent/hf_artifact_download.go:72-125 | in every reachable state a Ready parent has its marker on disk and no unfinished download, and no model is reported Ready through an unfinished download |
| `HfSafety.MarkerPublishesFinishedCopy` | pkg/modelagent/hf_artifact_startup.go:83-92 | in every reachable state a marker that matches the recorded lock was left by a download or repair, over a complete copy |
| `HfSafety.OnlyTheOwnerChangesFiles` | pkg/modelagent/hf_artifact_delete.go:113-149 | in every history a directory changes only under the task whose lock is on the record; it is reset or removed only with no recorded child, no symlink and no model reported Ready, removed only if moreover no intent names it, replaced in place only while no attached model is reported Ready |
| `HfSafety.ReadyIsComplete` | pkg/modelagent/hf_artifact_repair.go:71-168 | in every history, up to any point before which no removal in this identity's directory was stopped with the marker left, a Ready parent is a complete copy with its marker, and so is what any model reported Ready points at |
| `HfSafety.StoppedRemovalIsPublishedIff` | pkg/modelagent/hf_artifact_pending_deletion.go:310-337 | a removal stopped half-way and resumed for a wanted path leaves the parent Ready if and only if the marker survived |
| `HfProgress.JoinsReadyParent` | pkg/modelagent/hf_artifact_download.go:145-217 | from every reachable state: a task over a Ready parent, left alone, ends with the model attached on both sides and linked; files and all other records stay |
| `HfProgress.JoinsAfterDownload` | pkg/modelagent/hf_artifact_download.go:72-126 | over a missing, failed or interrupted parent without children, marker or links it ends with a Ready parent over a complete copy under its own new lock, listing just this model |
| `HfProgress.JoinsAfterRepair` | pkg/modelagent/hf_artifact_repair.go:14-169 | over a record nobody holds, whose files are complete or whose links are all recorded, it ends with a Ready parent over a complete copy; all children stay, each showing what it is meant to show |
| `HfProgress.StoppedOwnerIsRecovered` | pkg/modelagent/hf_artifact_startup.go:127-221 | an owner that stopped is ended: as Ready, with the statuses of its children given back, if its marker matches, and else, unless a receipt names its lock, as interrupted; children and files stay |
| `HfProgress.LostReleaseIsRetried` | pkg/modelagent/hf_artifact_pending.go:44-63 | the next task ends a release whose response was lost, committed or not; files, links and references stay |
| `HfProgress.GivingUpFrees` | pkg/modelagent/hf_artifact_download.go:96-125 | a task that gives up frees the record, with its children, as Failed or interrupted |
| `HfProgress.LeftAloneItJoins` | pkg/modelagent/hf_artifact_download.go:11-70 | from every reachable state in which the model's record and path allow it and the directory can serve, the steps of its own task alone attach and link it under a Ready parent; no other directory, link or record changes, and every other child shows its own status |
| `HfLeaving.LeftAloneItLeaves` | pkg/modelagent/hf_artifact_delete.go:10-82 | a deletion left alone ends with the reference and, unless its path is kept, the link gone; with other children the parent only loses this one; with other links, intents or a kept path it is given back in its former state, files in place; else record and files are gone; no other record or link changes |
| `HfLeaving.LeftAloneItResumes` | pkg/modelagent/hf_artifact_pending_deletion.go:280-345 | so does a deletion resumed from its receipt, wherever it had stopped and whether or not its UID is handed over |
| `HfLeaving.LeftAloneItGivesUp` | pkg/modelagent/hf_artifact_pending_download.go:146-189 | a model that only intended to download leaves as its receipt does |
| `HfLeaving.LeftAloneItIsPreserved` | pkg/modelagent/gopher_hf_artifact.go:563-625 | a preserved model leaves the records; its link and the files stay and the parent keeps its former state |
| `HfLeaving.LeftAloneItUnlinks` | pkg/modelagent/hf_artifact_delete.go:86-111 | a link no record knows is removed, and nothing else |
| `HfHistories.ActProjects` | pkg/modelagent/hf_artifact_download.go:11-218 | each of the forty-four steps leaves the ConfigMap as one repository mutation leaves it, or alone |
| `HfHistories.HandlersMeetDutyIff` | pkg/modelagent/hf_artifact_repair.go:36-58 | in every history each mutation a handler commits meets the callers' duties on which the run theorems rest, if and only if it is not a repair acquiring a record that was deleted since the task read it with children |
| `HfHistories.NewRecordsListChildrenIff` | pkg/modelagent/hf_artifact_repair.go:36-58 | in every history a new parent record lists exactly what its task had read before the lock, and lists children if and only if such a repair created it |
| `HfHistories.StaleRepairBreaksReferences` | pkg/modelagent/gopher_hf_artifact.go:341-377 | for every history and two points of it at which a parent had children and its record was gone: a task that read the record at the first and locks at the second creates a one-sided record |
| `HfHistories.ReferencesStayTwoSided` | pkg/modelagent/hf_artifact_repository.go:285-512 | in every history references stay two-sided up to the first such repair |
| `HfHistories.HistoryIsARun` | pkg/modelagent/hf_artifact_download.go:72-125 | every history without such a repair is a legal run of mutations in which whoever publishes Ready presents the record as stored under its lock |
| `HfHistories.HandlersShowIntended` | pkg/modelagent/hf_artifact_repair.go:71-168 | in every such history, whenever the parent is Ready a child attached throughout shows what ordinary writes last gave it |
| `HfHistories.ReadyOverRemainsIff` | pkg/modelagent/hf_artifact_delete.go:151-159 | a step makes a record Ready over an incomplete copy if and only if it commits the end of a deletion of a formerly Ready parent with the marker present and the files partly removed |
| `HfDeletion.AdvanceWrites` | pkg/modelagent/hf_artifact_pending_deletion.go:280-345 | each step of a deletion writes the records at most once, through one repository mutation |
| `HfDeletion.PlayKeeps` | pkg/modelagent/hf_artifact_startup.go:127-221 | a step, a crash or a half-done removal at any point, from an attached child, a download intent or a receipt, under its own UID or one that is handed over, leaves the goal of the deletion unmoved and a state it can resume from |
| `HfDeletion.ClaimKeeps` | pkg/modelagent/hf_artifact_pending_deletion.go:297-305 | a receipt of another UID passes to the model's current one, even while it owns the parent, without moving the goal |
| `HfDeletion.BarredTaskOnlyRecovers` | pkg/modelagent/hf_artifact_pending_deletion.go:63-106 | a task whose UID is neither that of the intent or receipt nor the current one changes no file, reference, intent or receipt however long it runs; it may free the lock of an owner that stopped |
| `HfDeletion.ConvertKeeps` | pkg/modelagent/hf_artifact_pending_download.go:146-189 | turning the model's download intent into a receipt does not move the goal either |
| `HfDeletion.EveryFinishIsTheSame` | pkg/modelagent/hf_artifact_delete.go:10-82 | after any sequence of steps and crashes, a finished deletion has removed the model's record and left exactly the other records and files that the first state determines, lock numbers apart |
| `HfDeletion.LeftAloneItFinishes` | pkg/modelagent/gopher_hf_artifact.go:448-503 | from every such state the deletion finishes without outside help |
| `HfDeletion.FurtherRunChangesNothing` | pkg/modelagent/gopher_hf_artifact.go:476-487 | a further run of a finished deletion changes no record and no file |
| `HfDeletion.ExactWithoutParent` | pkg/modelagent/hf_artifact_delete.go:137-148 | where the parent is removed, finished deletions agree in every record |
| `HfDeletion.RerunLeavesAnotherNumber` | pkg/modelagent/hf_artifact_pending_deletion.go:199-217 | a crash after the parent was given back leaves a different completed lock ID than no crash |
| `HfSiblings.AttachedPairIsSound` | pkg/modelagent/hf_artifact_delete.go:10-82 | any two models attached under different paths to a parent nobody holds are a start for the following |
| `HfSiblings.PassiveTurn` | pkg/modelagent/hf_artifact_pending_deletion.go:153-223 | while a sibling's stopped deletion owns the parent, a deletion only waits: it may turn its intent into a receipt, and the common goal of both stays |
| `HfSiblings.TurnKeeps` | pkg/modelagent/hf_artifact_file_lock.go:70-109 | a turn of either deletion under the file lock, stopped at any point, leaves the common goal of both unmoved unless the order matters |
| `HfSiblings.StoppedTurnsCanFinish` | pkg/modelagent/gopher_hf_artifact.go:448-503 | after any turns, wherever they stopped, one turn of each finishes both deletions |
| `HfSiblings.OrderDecides` | pkg/modelagent/hf_artifact_delete.go:112-149 | wherever the order matters there are two runs that finish both deletions and leave other records or files |
| `HfLateRemoval.TurnIgnores` | pkg/modelagent/configmap_reconciler.go:391-410 | a turn of one deletion is the same before and after the other's record, already cleaned up, is removed |
| `HfLateRemoval.EveryOrderEndsTheSame` | pkg/modelagent/gopher_hf_artifact.go:448-503 | in every interleaving of turns, stops, reruns and late removals of the records, once both records are gone all other records and files are those the first state determines, lock numbers apart, unless the order matters |
| `HfLateRemoval.OrderDecidesIff` | pkg/modelagent/hf_artifact_delete.go:112-149 | two interleavings that finish both deletions can end differently if and only if the order matters: nobody else is recorded or needs the directory, and one path, unlike the other, has another consumer but no link, before its deletion has begun |
| `HfLateRemoval.LostLinkIsDecidedByOrder` | pkg/modelagent/hf_artifact_delete.go:112-149 | two attached models, one path wanted by another consumer with its link missing, are such a case |
| `HfCache.Reconciler.EvictModel` | pkg/modelagent/hf_artifact_recovery.go:146-164 | the model leaves the cache and every cached parent's children and saved statuses |
| `HfCache.Reconciler.InvalidateAndEvict` | pkg/modelagent/configmap_reconciler.go:608-621 | eviction, and the UID is fenced unless it is empty |
| `HfCache.Reconciler.CommitParent` | pkg/modelagent/hf_artifact_recovery.go:126-142 | the cached parent leaves evicted children out |
| `HfCache.Reconciler.CommitModel` | pkg/modelagent/hf_artifact_recovery.go:87-122 | touches no other model and no invalidation; a Deleted one is evicted; the owner changes and an eviction ends only by the model's own mutation under a UID that may write; a shared record is taken unless evicted or its owner fenced; an evicted model stays in no cache |
| `HfCache.Reconciler.CommitEntries` | pkg/modelagent/hf_artifact_recovery.go:54-83 | removals, then children, then parents, each in any order |
| `HfCache.EvictedStaysOut` | pkg/modelagent/hf_artifact_recovery.go:54-164 | after every run of commits, evictions, ordinary writes and UID handoffs, an evicted model is in no cache, in no cached parent's children and in no saved statuses |
| `HfCache.StaleCommitIsARead` | pkg/modelagent/hf_artifact_recovery.go:54-122 | committing a step under an invalidated UID that only brought back cached records leaves the caches as a plain read of the same two ConfigMaps does |
| `HfCache.CommittedKeepsSound` | pkg/modelagent/hf_artifact_recovery.go:54-142 | caches that take in reachable stores hold only well-formed records |
| `HfRecovery.RestoreParentInto` | pkg/modelagent/hf_artifact_recovery.go:287-346 | one parent's group restored as needing validation, current records and owners preserved |
| `HfRecovery.CheckRecovery` | pkg/modelagent/hf_artifact_recovery.go:298-309 | recovery is needed exactly if the parent, or a child the cache can bring back, is missing |
| `HfRecovery.RecoverChildren` | pkg/modelagent/hf_artifact_recovery.go:313-335 | exactly the trusted children are written as Failed, with their statuses saved unless an earlier repair's are |
| `HfRecovery.RestoreEntries` | pkg/modelagent/hf_artifact_recovery.go:237-283 | the records the caches trust, all groups in any order, then the records without a parent; what comes back is `ReattachesExactly` and `PlainRecordsComeBackIff` |
| `HfRecovery.RestorePlainInto` | pkg/modelagent/hf_artifact_recovery.go:267-276 | missing records without a parent come back as cached |
| `HfRecovery.CachedEntries` | pkg/modelagent/hf_artifact_recovery.go:181-276 | exactly the cached records that are not Deleted and whose UID is not fenced, ordinary ones only if asked for |
| `HfRecovery.RestoreKeepsTwoSided` | pkg/modelagent/hf_artifact_recovery.go:237-346 | recovery into any two-sided store keeps references two-sided, whatever the caches hold |
| `HfRecovery.RebuildsWhatTheCachesHold` | pkg/modelagent/hf_artifact_recovery.go:237-283 | rebuilding a lost ConfigMap succeeds and gives the same store in every order of the loop |
| `HfRecovery.RebuiltIsSafe` | pkg/modelagent/hf_artifact_recovery.go:287-346 | the rebuilt store has two-sided references, no Ready parent, only Failed attached children, every cached parent with its lock owner, and no evicted model |
| `HfRecovery.ReattachesExactly` | pkg/modelagent/hf_artifact_recovery.go:313-335 | for every cache, with ordinary models or without: a child is attached in the rebuilt store exactly if its cached record is not Deleted, its UID not fenced and it names a cached parent that lists it; then it is that record as Failed, under the cached path, with its cached status, or the one an earlier repair saved, saved |
| `HfRecovery.PlainRecordsComeBackIff` | pkg/modelagent/hf_artifact_recovery.go:237-283 | every other rebuilt record is a trusted one without parent, as cached; an ordinary one if and only if they are asked for |
| `HfRecovery.RestoreKeepsInv` | pkg/modelagent/hf_artifact_recovery.go:237-346 | recovery from caches of reachable stores, into any store that runs keep, gives such a store again: references, roles, locks and saved statuses |
| `HfRecovery.RebuiltKeepsInv` | pkg/modelagent/hf_artifact_recovery.go:237-283 | so is a lost ConfigMap rebuilt from them |
| `HfRecovery.RebuiltEffective` | pkg/modelagent/hf_artifact_recovery.go:313-335 | the status a rebuilt child will show is its cached one, or the one saved by the repair that was under way |
| `HfRecovery.ReadyGivesBackCachedStatus` | pkg/modelagent/hf_artifact_recovery.go:313-335 | in every run from a rebuilt ConfigMap, through any repairs: whenever the parent is Ready, a child attached throughout shows what ordinary writes gave it since, and without such writes that status |
| `HfRecovery.RevalidationSucceeds` | pkg/modelagent/hf_artifact_repository.go:143-279 | a rebuilt parent can be acquired, or kept by its cached owner, and marked Ready |
| `HfRecovery.LostRecordComesBackIff` | pkg/modelagent/hf_artifact_recovery.go:287-346 | after the record of an attached model is lost, restoring it gives a store that runs keep, both sides of the reference in it, if and only if the caches hold both sides as the parent lists them, the parent is intact and nobody owns it; otherwise it fails or the reference stays one-sided |
| `HfRecovery.LostRecordShowsStatus` | pkg/modelagent/hf_artifact_recovery.go:287-346 | a lost record that the caches hold comes back meaning its cached status, and no other model loses its own |
| `HfRebuild.CommittedComesBackIff` | pkg/modelagent/hf_artifact_recovery.go:54-142 | after a commit the caches hold a committed reference on both sides, as committed, if and only if its model is neither evicted nor its cached UID fenced |
| `HfRebuild.RebuiltAsCommitted` | pkg/modelagent/hf_artifact_recovery.go:54-346 | so a ConfigMap lost right after a commit is rebuilt with exactly those committed references, under their paths and meaning their committed statuses |
| `HfRebuild.LostAfterRead` | pkg/modelagent/hf_artifact_recovery.go:40-83 | the same at every point of every agent run that follows a read |
| `HfRebuild.BlockedIff` | pkg/modelagent/configmap_reconciler.go:644-669 | a mutation is blocked if and only if its UID is fenced, or empty where any is, or another UID is known to own the model |
| `HfRebuild.ForeignUidWritesNothing` | pkg/modelagent/configmap_reconciler.go:569-669 | a UID other than the known owner's changes no record unless the lister proves it current |
| `HfRebuild.OwnerIsHeard` | pkg/modelagent/configmap_reconciler.go:671-730 | a UID that is neither fenced nor foreign writes its model's status wherever the records allow it |
| `HfRebuild.OrdinaryComesBack` | pkg/modelagent/configmap_reconciler.go:185-218 | an ordinary model comes back as cached by explicit reconciliation, and only by that |
| `HfRebuild.OrdinaryIsCached` | pkg/modelagent/configmap_reconciler.go:220-311 | an ordinary write under an unblocked UID is cached under that UID, the fields it does not carry kept |
| `HfRebuild.AdoptionHandsOver` | pkg/modelagent/hf_artifact_pending_deletion.go:111-148 | a receipt handed over makes its UID the owner and fences the one before |
| `HfAgent.StartIsFine` | pkg/modelagent/configmap_reconciler.go:106-119 | with empty caches on any ConfigMap that runs keep, or on none, the invariant of the following runs holds: it is where every agent run starts |
| `HfAgent.AgentRunKeepsFine` | pkg/modelagent/configmap_reconciler.go:520-563 | in every run of an agent, with losses, recoveries, deletions, UID handoffs and other processes in between, as long as callers do their duty the ConfigMap keeps what runs of mutations keep, the caches hold only such records, and an evicted model is in no cache |
| `HfAgent.RebuiltInEveryRun` | pkg/modelagent/hf_artifact_recovery.go:237-283 | whenever the ConfigMap is lost in such a run, what the caches rebuild satisfies the same invariant |
| `HfAgent.LostRecordIsPrepared` | pkg/modelagent/configmap_reconciler.go:520-563 | whenever an attached model's record is lost in such a run, its next mutation starts from a store that runs keep if and only if the caches hold both sides and nobody owns the parent |
| `HfAgent.InvalidatedStays` | pkg/modelagent/configmap_reconciler.go:608-669 | in every run an invalidated UID stays invalidated |
| `HfAgent.InvalidatedUidIsPowerless` | pkg/modelagent/configmap_reconciler.go:520-591 | in every run, whatever other processes write and whether or not callers do their duty, every later step carrying an invalidated UID leaves the ConfigMap as the preparatory restore leaves it and the caches as a plain read of the two ConfigMaps does, or fails and changes nothing; it registers and adopts nothing, and deletes nothing another UID owns |
| `HfAgent.DeletedUidIsPowerless` | pkg/modelagent/configmap_reconciler.go:360-418 | the same for every task of a deleted resource, from its deletion on |
| `TaskTracker.Tracker.EnsureSequence` | pkg/modelagent/gopher_task_tracker.go:55-66 | a new task's sequence is newer than every one seen if and only if the 64-bit counter does not wrap; then it is zero |
| `TaskTracker.Tracker.BeginDownload` | pkg/modelagent/gopher_task_tracker.go:70-95 | the verdict by fences, barrier and slots, which `DownloadVerdictIff` derives from the history; only Proceed owns a new attempt and raises the fence |
| `TaskTracker.Tracker.FinishDownload` | pkg/modelagent/gopher_task_tracker.go:100-109 | frees the slot only for the attempt that holds it |
| `TaskTracker.Tracker.BeginDelete` | pkg/modelagent/gopher_task_tracker.go:115-150 | reserves the barrier before cancelling; it cancels the sequenced download that holds the slot, or, if there is none, the latest legacy attempt, as far as they are cancellable; Stale and lost races cancel nothing |
| `TaskTracker.Tracker.CancelLegacyDownload` | pkg/modelagent/gopher_task_tracker.go:186-197 | cancels the latest cancellable legacy download and nothing else |
| `TaskTracker.Tracker.FinishDelete` | pkg/modelagent/gopher_task_tracker.go:203-219 | releases the barrier and fences older tasks, or keeps it, only for the current attempt |
| `TaskTracker.Tracker.BeginLegacyTask` | pkg/modelagent/gopher_task_tracker.go:155-168 | a new attempt beside the others |
| `TaskTracker.Tracker.FinishLegacyTask` | pkg/modelagent/gopher_task_tracker.go:170-184 | the attempt is gone from its model and nothing else can be told apart: dropping an idle model reads like keeping it |
| `TaskRuns.FencesAreMonotone` | pkg/modelagent/gopher_task_tracker.go:70-150 | in every run the newest-download, finished-delete and barrier fences of every model never decrease |
| `TaskRuns.ProceedsInOrder` | pkg/modelagent/gopher_task_tracker.go:70-150 | in every run the tasks of a model that proceed do so in sequence order, strictly between download and delete |
| `TaskRuns.DeleteExcludesDownloads` | pkg/modelagent/gopher_task_tracker.go:115-150 | from the moment a delete proceeds until its barrier falls, no sequenced download holds the slot |
| `TaskRuns.BarrierOwnerProceeds` | pkg/modelagent/gopher_task_tracker.go:203-219 | the task of a kept barrier proceeds as soon as no work is active |
| `TaskRuns.BarrierStopsOthers` | pkg/modelagent/gopher_task_tracker.go:70-82 | no download and no other delete proceeds while a barrier stands |
| `TaskRuns.SupersededFinishChangesNothing` | pkg/modelagent/gopher_task_tracker.go:100-109 | an attempt that lost its slot never gets it back, and finishing it at any later time changes no model |
| `TaskRuns.DroppingEqualsKeeping` | pkg/modelagent/gopher_task_tracker.go:170-184 | every run gives the same verdicts as one in which idle models are never dropped |
| `TaskVerdicts.DownloadVerdictIff` | pkg/modelagent/gopher_task_tracker.go:70-95 | in every run a download is Stale if and only if a delete of at least its sequence was admitted or a later download was; it proceeds if and only if moreover no barrier stands and no admitted work is unfinished; otherwise it waits |
| `TaskVerdicts.DeleteVerdictIff` | pkg/modelagent/gopher_task_tracker.go:115-150 | a delete is Stale if and only if a download of at least its sequence or a delete of a higher one was admitted, or one of at least its sequence has ended for good; it gets the barrier if and only if it is not Stale and no barrier stands but its own kept one; it proceeds if and only if moreover no admitted work is unfinished |
| `TaskVerdicts.LatestLegacyIff` | pkg/modelagent/gopher_task_tracker.go:155-197 | the legacy attempt a delete would cancel is the last cancellable one admitted, as long as it has not finished |
| `TaskQueue.Copied` | pkg/modelagent/gopher_task_queue.go:38-45 | the array a growing append or a front insertion allocates |
| `TaskQueue.Compact` | pkg/modelagent/gopher_task_queue.go:118-137 | the in-place filter leaves exactly the tasks that are not superseded, in order |
| `TaskQueue.Lane.Append` | pkg/modelagent/gopher_task_queue.go:39-45 | joins at the back, in place or in a larger array |
| `TaskQueue.Lane.PushFront` | pkg/modelagent/gopher_task_queue.go:38-38 | joins at the front of a new array |
| `TaskQueue.Lane.PopFront` | pkg/modelagent/gopher_task_queue.go:57-66 | takes the first task |
| `TaskQueue.Lane.RemoveSuperseded` | pkg/modelagent/gopher_task_queue.go:118-137 | the lane without superseded tasks, untouched if the delete has no UID |
| `TaskQueue.Queue.Add` | pkg/modelagent/gopher_task_queue.go:25-49 | a delete goes to the front of the high-priority lane and removes what it supersedes from all three; another task joins the back of the high-priority lane exactly if it is neither normal-priority-only nor a revalidation replay and either waits for its path or downloads from object storage, else the revalidation lane if it is a replay, else the download lane; nothing once closed, with lanes that share no memory |
| `TaskQueue.Queue.TakeNormal` | pkg/modelagent/gopher_task_queue.go:51-68 | downloads before revalidations, each from the front |
| `TaskQueue.Queue.TakeHighPriority` | pkg/modelagent/gopher_task_queue.go:70-82 | the front of the high-priority lane |
| `TaskQueue.Queue.Close` | pkg/modelagent/gopher_task_queue.go:84-89 | queued tasks stay |
| `TaskQueue.Queue.Length` | pkg/modelagent/gopher_task_queue.go:91-95 | all three lanes |
| `QueueRuns.NothingIsLost` | pkg/modelagent/gopher_task_queue.go:25-82 | in every run the accepted tasks are, with multiplicity, those popped, still queued or superseded |
| `QueueRuns.SupersededOnlyByDelete` | pkg/modelagent/gopher_task_queue.go:118-137 | every superseded task was accepted, and after it a delete of its nonempty model UID was accepted; a coordinated delete never supersedes a higher sequence |
| `QueueRuns.LanesKeepOrder` | pkg/modelagent/gopher_task_queue.go:25-82 | in every run, the ordinary tasks popped from a lane followed by those still in it are the accepted ones in acceptance order, and the ones left out are, with multiplicity, superseded |
| `QueueRuns.DeletePurgesIff` | pkg/modelagent/gopher_task_queue.go:118-137 | in every run, right after a delete is accepted the queue holds it and exactly those tasks before it that are deletes, of another model or, for a coordinated delete, of a higher sequence |
| `HelmChart.ExpandingYieldsTheInput` | cmd/crd-gen/helmchart.go:42-106 | for every set of schemas whose keys and texts hold no marker, every threshold and plain names that do not collide: every marker in a document or partial is the value of a key, so nothing is refused, and expanding all includes of a factored schema ends in the input schema if and only if in no list element the value of the first key becomes a partial |
| `HelmChart.ExpandingYieldsTheInputIff` | cmd/crd-gen/helmchart.go:222-262 | on trees, where a text that starts with the marker is an include: the factored schema expands to the input if and only if the input has no such text and no such list element |
| `HelmChart.TwoAlternativesAreLost` | cmd/crd-gen/helmchart.go:246-262 | a list of two elements that hold one large subtree under their only key is not refused, and expanding it does not give it back |
| `HelmChart.ExpandsBack` | cmd/crd-gen/helmchart.go:222-262 | under these two conditions every subtree comes back, also behind the dashes of list elements, with no more nested includes than the tree is high |
| `HelmChart.IncludesNamePartials` | cmd/crd-gen/helmchart.go:222-244 | every include in the output names a partial no larger than the tree it stands in |
| `HelmChart.BodyIncludesSmaller` | cmd/crd-gen/helmchart.go:265-288 | a partial's body includes only partials of strictly smaller trees |
| `HelmChart.RewrittenListsHoldNoIncludes` | cmd/crd-gen/helmchart.go:196-218 | an include is never a list element |
| `HelmChart.EveryPartialIsReachable` | cmd/crd-gen/helmchart.go:75-106 | every partial is reached from some document through a chain of includes |
| `HelmChart.Counter.CountNodes` | cmd/crd-gen/helmchart.go:199-218 | adds to each count exactly how often that eligible large object occurs, which by `PlacesOf` is the number of places at which it stands |
| `HelmChart.FindPartials` | cmd/crd-gen/helmchart.go:75-87 | exactly the subtrees that occur at least twice, by `PartialIff` those that stand at two different places |
| `HelmPlaces.PlacesOf` | cmd/crd-gen/helmchart.go:199-218 | for every tree and object there is a list, without repetition, of exactly the places at which the object stands as an eligible large subtree, and its length is the count |
| `HelmPlaces.PartialIff` | cmd/crd-gen/helmchart.go:75-87 | an object becomes a partial if and only if it stands at two different places of the schemas |
| `HelmChart.BuildChart` | cmd/crd-gen/helmchart.go:75-106 | every schema replaced in place by its rewritten form, with one definition per partial |
| `HelmChart.RenderPartials` | cmd/crd-gen/helmchart.go:265-288 | one definition per partial, with factored fields |
| `Cleanup.FileSystem.RemoveUnreferenced` | pkg/modelagent/artifact_cleanup.go:120-177 | with or without failures nothing that should survive is removed; without failures exactly the survivors remain, and the result says whether the target does or is guarded |
| `Cleanup.FileSystem.RemoveChildren` | pkg/modelagent/artifact_cleanup.go:160-169 | the loop over a directory in any order, stopped by the first failure |
| `Cleanup.CheckProtected` | pkg/modelagent/artifact_cleanup.go:124-130 | whether the path lies in a protected one, or is or contains one |
| `Cleanup.SurvivalRule` | pkg/modelagent/artifact_cleanup.go:120-177 | a non-directory survives if and only if it is in or above a protected path or has a reserved component at or below the target; a directory if and only if that holds or something in it survives |
| `Cleanup.SharedArtifactsSurvive` | pkg/modelagent/artifact_cleanup.go:120-123 | everything in a lock or shared-artifact directory at or below the target survives |
| `AuthoredOrder.ParentComesFirstIff` | cmd/admission-runner/manifest_validation.go:87-135 | in the sorted slice a parent precedes its child if and only if they are not on one inheritance cycle or its key is smaller |
| `AuthoredOrder.ChildIsDeeper` | cmd/admission-runner/manifest_validation.go:93-113 | off a common cycle a child is exactly one deeper than its parent |
| `AuthoredOrder.CycleTies` | cmd/admission-runner/manifest_validation.go:93-113 | on a common cycle both have the same depth |
| `AuthoredOrder.ParentByNameIff` | cmd/admission-runner/manifest_validation.go:93-113 | the parent is the object the annotation names, of the same kind and namespace, or, for a ServingRuntime without such, the ClusterServingRuntime of that name; and nothing else |
| `AuthoredOrder.DepthOf` | cmd/admission-runner/manifest_validation.go:93-113 | the recursion ends on every graph, computes the chain length or 100 more than the steps to a revisit, and restores the visited set |
| `AuthoredOrder.ComesBefore` | cmd/admission-runner/manifest_validation.go:124-134 | rank, then depth, then key |
| `AuthoredOrder.BuildLookup` | cmd/admission-runner/manifest_validation.go:88-91 | exactly the objects under their keys, the later of two with one key |
| `AuthoredOrder.SortInPlace` | cmd/admission-runner/manifest_validation.go:124-134 | a permutation in which nothing comes after what it should precede |
| `AuthoredOrder.Order` | cmd/admission-runner/manifest_validation.go:87-135 | a permutation of the objects, models before runtimes before all others, sorted for the lookup of exactly these; given distinct keys, every parent an object names is among them and comes first, unless both are on one cycle, where the smaller key does |
| `SamePath.OneOfTwoWaits` | pkg/modelagent/gopher.go:1330-1336 | of two models with different keys exactly one waits for the other |
| `SamePath.WaitsTransitively` | pkg/modelagent/gopher.go:1330-1336 | waiting is transitive among models without a deadlocking triple |
| `SamePath.DeadlockIsACycle` | pkg/modelagent/gopher.go:1330-1336 | an undated model between two dated ones makes all three wait for ever |
| `SamePath.CycleFreeIff` | pkg/modelagent/gopher.go:1330-1336 | a set of models with distinct keys has no waiting cycle of any length if and only if it contains no such triple |
| `SamePath.ExactlyOneGoesFirst` | pkg/modelagent/gopher.go:1254-1336 | then exactly one model of a nonempty set waits for nobody |
| `SamePath.DatedModelsNeverDeadlock` | pkg/modelagent/gopher.go:1330-1336 | with all creation times set there is no deadlock and no cycle |
| `SamePath.OldestGoesFirst` | pkg/modelagent/gopher.go:1330-1336 | whoever goes first among dated models is the oldest, by key among equally old ones |
| `SamePath.SmallestKeyGoesFirst` | pkg/modelagent/gopher.go:1330-1336 | without creation times the smallest key goes first |

## Left out

- EveryFinishIsTheSame: compares lock IDs only as present or absent, because a rerun gives the parent back under a new lock, as `RerunLeavesAnotherNumber` shows.
- ReadyIsNeverUnfinished: does not exclude the rest of a stopped removal; `ReadyIsComplete` and `StoppedRemovalIsPublishedIff` state exactly when that is excluded.
- DeleteExcludesDownloads: says nothing about unsequenced legacy tasks, which the tracker lets overlap.
- ParentComesFirstIff: kinds contain no slash, as in every Kubernetes kind; otherwise a key could be read as another kind's. Order likewise.
- TakeNormal: the wait on the condition variable is not modelled; `None` stands for a closed and drained queue or for going back to wait. TakeHighPriority likewise.
- OnlyTheOwnerChangesFiles: the handlers hold the advisory parent lock for their whole run; the second, per-child lock is not assumed.
- HfProtocol: one store root, so a parent record moved to another root is covered by `HfRuns` but not by the file-level theorems.
- HfProtocol: validation accepts only complete copies, and a download that reports success leaves one; the hub and object-store transfers themselves are not modelled.
- LeftAloneItJoins: the task is left alone and its calls succeed; a directory whose owner is a receipt without matching marker, or whose files are incomplete and have links no record knows, is waited for. The other `HfProgress` and `HfLeaving` results likewise.
- ParentByNameIff: kinds and namespaces contain no slash, as in Kubernetes.
- PlayKeeps: one deletion alone, while no sibling's receipt owns the parent; `HfSiblings` drops that condition for two deletions. The lister's answer about the current UID is a Boolean that stays fixed, and so does whether a path has another consumer.
- EveryOrderEndsTheSame: two deletions under different paths; three or more at once, two models on one path, and downloads in between are not covered.
- InvalidatedUidIsPowerless: the lister's answer about the current UID is a Boolean of the step.
- AgentRunKeepsFine: callers do their duty (`HfRuns.Legal`) and other processes keep the shared records well-formed; `HandlersMeetDutyIff` says exactly when the handlers do.
- HfRuns: `Legal` is what callers owe: a record is created without children, and Deleted is not written as a status. Both duties are stated as exact conditions, and `HandlersMeetDutyIff` says exactly when the handlers meet them.
- JSON encoding and corrupt records: records are typed, so the branches for undecodable JSON, foreign ConfigMap keys and hash collisions of parent keys do not arise.
- Kubernetes clients, retries and timers: a mutation is one atomic step that may commit with its response lost.
- Path resolution (`EvalSymlinks`, `openat`, case and `Clean` variants): paths are compared as given.
- Node labels: the callback that updates them is not modelled.
- YAML text and the marker regular expression of crd-gen: the model ends at trees, with the guard and the place where an include lands stated on them. What becomes of an input text that holds the marker further inside, refused or rewritten, is not modelled, and neither is the refusal of inputs that hold template delimiters. A subtree is its own canonical form, that is, canonical JSON is taken to be injective, and partial names are taken not to collide.
- In `HelmChart` an object is its fields in the order in which YAML writes its keys.
- The stability of the sort in `AuthoredOrder`: keys decide between all distinct objects.
- Accelerator scoring, webhooks, metrics and the serving controllers: field-by-field defaulting and reconciliation with no invariant across steps.
