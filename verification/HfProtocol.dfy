/**
 The handlers as a state machine over records and files (hf_artifact_download.go, hf_artifact_repair.go,
 hf_artifact_delete.go, hf_artifact_pending_deletion.go, hf_artifact_startup.go, hf_artifact_pending.go,
 hf_artifact_files.go, hf_artifact_file_lock.go).

 A task works on one identity while it holds that parent's advisory file lock: `active` maps each
 locked identity to its task, so a second agent cannot begin there. Tasks on different identities and
 ordinary model writes interleave at every step. A crash or an early return at any point is `Return`:
 the lock is gone and the local variables with it, the records and files stay as they are. Directory
 removal is not atomic: it can stop half-way, with or without the ready marker still in place.
 */
module HfProtocol {
  import opened HfTypes
  import opened HfRepository
  import opened HfRuns

  datatype Marker = NoMarker | Torn | Wrote(lock: LockId)

  /** What the files are worth: a finished copy, an unfinished download, or the rest of a stopped removal. */
  datatype Files = Whole | Unfinished | PartlyRemoved

  datatype Dir = Dir(present: bool, marker: Marker, files: Files)

  const ABSENT := Dir(false, NoMarker, Unfinished)

  /** Program points of the handlers, named after what has just been established. */
  datatype PC =
    | Start
    | Read(found: bool)
    | Remembered(found: bool)
    | Checked(found: bool)
    | Reuse
    | Owned(repair: bool)
    | Cleared
    | Corrupt
    | ChildrenFailed
    | Replaceable
    | Unmarked
    | Fetching
    | Fetched
    | Marked
    | Attaching
    | Linked(created: bool)
    | Referenced(created: bool)
    | Deleting
    | DeletionOwned(found: bool)
    | Unlinked(found: bool)
    | Scanned
    | Unused
    | Removed
    | DeletionDone
    | Preserving(before: ParentStatus)

  /** `parent` and `receipt` are the handler's local variables of those names. */
  datatype Task = Task(key: ModelKey, uid: Uid, path: Path, pc: PC, parent: Parent, receipt: PendingDeletion)

  /** A lock release whose outcome is unknown, kept in memory for the next attempt. */
  datatype Pending = Pending(id: Identity, lock: LockId, interrupted: bool)

  /** History: what a lock ID was issued for. */
  datatype LockKind = ForWork | ForDeletion(before: ParentStatus)

  datatype Sys = Sys(
    root: Path,
    store: Store,
    next: LockId,
    dirs: map<Identity, Dir>,
    links: map<Path, Identity>,
    active: map<Identity, Task>,
    releases: set<Pending>,
    issued: map<LockId, LockKind>)

  function Home(root: Path, id: Identity): DirPath {
    DirPath(root, id)
  }

  function DirAt(dirs: map<Identity, Dir>, id: Identity): Dir {
    if id in dirs then dirs[id] else ABSENT
  }

  function DirOf(sys: Sys, id: Identity): Dir {
    DirAt(sys.dirs, id)
  }

  /** No child symlink points at this identity's directory. */
  predicate NoLinks(links: map<Path, Identity>, id: Identity) {
    forall p :: p in links ==> links[p] != id
  }

  /** No child intends to download into this directory. */
  predicate NoIntents(children: map<ModelKey, Child>, home: DirPath) {
    forall key :: key in children ==> !NamesDirectory(children[key], home.identity, home)
  }

  /** The record a task starts from when none is stored: this identity's path, no children. */
  function Blank(root: Path, id: Identity): Parent {
    Parent(Home(root, id), Failed, NO_LOCK, NO_LOCK, map[], map[])
  }

  predicate MarkerMatches(sys: Sys, id: Identity, lock: LockId) {
    lock != NO_LOCK && DirOf(sys, id).marker == Wrote(lock)
  }

  predicate MarkerExists(sys: Sys, id: Identity) {
    DirOf(sys, id).marker != NoMarker
  }

  // ---- building blocks of the steps ----

  function Commit(sys: Sys, op: Op): Sys {
    var w := Step(World(sys.store, sys.next), op);
    sys.(store := w.store, next := w.next)
  }

  /** A commit that may hand out the next lock ID. */
  function CommitLock(sys: Sys, op: Op, kind: LockKind): Sys {
    Commit(sys, op).(issued := sys.issued[sys.next := kind])
  }

  function Goto(sys: Sys, id: Identity, task: Task): Sys {
    sys.(active := sys.active[id := task])
  }

  function Leave(sys: Sys, id: Identity): Sys {
    sys.(active := sys.active - {id})
  }

  function SetDir(sys: Sys, id: Identity, dir: Dir): Sys {
    sys.(dirs := sys.dirs[id := dir])
  }

  predicate At(sys: Sys, id: Identity, pc: PC) {
    id in sys.active && sys.active[id].pc == pc
  }

  // ---- any handler ----

  /** A record that this identity may have had: its directory, and well-formed children. */
  predicate Plausible(blank: Parent, seen: Parent) {
    seen.localPath == blank.localPath && SavedShape(seen.(status := Updating))
  }

  /**
   The task takes the parent lock. `seen` is the record it read before (runHfArtifactDownload), which
   may be out of date by now.
   */
  function Begin(sys: Sys, id: Identity, key: ModelKey, uid: Uid, path: Path, seen: Parent): Sys {
    if id in sys.active then sys
    else
      var noReceipt := PendingDeletion(id, Home(sys.root, id), path, uid, NO_LOCK, false, None);
      var parent := if Plausible(Blank(sys.root, id), seen) then seen else Blank(sys.root, id);
      Goto(sys, id, Task(key, uid, path, Start, parent, noReceipt))
  }

  /** retryPendingLockRelease: finish an uncertain release before anything else. */
  function RetryRelease(sys: Sys, id: Identity, pending: Pending): Sys {
    if At(sys, id, Start) && pending in sys.releases && pending.id == id then
      var expected := Blank(sys.root, id).(lockId := pending.lock);
      Commit(sys, Release(id, expected, if pending.interrupted then Updating else Failed)).(releases :=
            sys.releases - {pending})
    else sys
  }

  /** Finish an abandoned owner's work from its marker: startup recovery, delete and preserve. */
  function FinishFromMarker(sys: Sys, id: Identity): Sys {
    if At(sys, id, Start) && id in sys.store.parents && MarkerMatches(sys, id, sys.store.parents[id].lockId)
    then Commit(sys, Release(id, sys.store.parents[id], Ready))
    else sys
  }

  predicate OwnedByReceipt(s: Store, lock: LockId) {
    exists key :: key in s.children && s.children[key].pendingDeletion.Some?
      && s.children[key].pendingDeletion.value.parentLock == lock
  }

  /** recoverInterruptedParent: a receipt keeps its deletion lock, other abandoned work becomes retryable. */
  function RecoverInterrupted(sys: Sys, id: Identity, expected: Parent): Sys {
    if At(sys, id, Start) && expected.lockId != NO_LOCK && !MarkerMatches(sys, id, expected.lockId)
      && !OwnedByReceipt(sys.store, expected.lockId)
    then Commit(sys, Release(id, expected, Updating))
    else sys
  }

  // ---- download and repair ----

  /**
   Get under the lock, falling back to the record read before; wait for a foreign owner that has not
   left a completion marker.
   */
  function ReadParent(sys: Sys, id: Identity): Sys {
    if !At(sys, id, Start) then sys
    else
      var found := id in sys.store.parents;
      var parent := if found then sys.store.parents[id] else sys.active[id].parent;
      if found && parent.BlocksNewOperation() && !MarkerMatches(sys, id, parent.lockId) then Leave(sys, id)
      else Goto(sys, id, sys.active[id].(pc := Read(found), parent := parent))
  }

  function RememberIntent(sys: Sys, id: Identity, blocked: bool): Sys {
    if id in sys.active && sys.active[id].pc.Read? then
      var task := sys.active[id];
      if RememberDownload(sys.store, id, task.parent.localPath, task.key, task.uid, task.path, blocked).Done? then
        Goto(Commit(sys, Remember(id, task.parent.localPath, task.key, task.uid, task.path, blocked)), id,
             task.(pc := Remembered(task.pc.found)))
      else Leave(sys, id)
    else sys
  }

  /** handleDownload: only an unused parent without completed files is downloaded afresh. */
  function CheckInitial(sys: Sys, id: Identity): Sys {
    if id in sys.active && sys.active[id].pc.Remembered? then
      var task := sys.active[id];
      if && (task.pc.found ==> task.parent.status == Failed || task.parent.Interrupted())
         && !(task.pc.found && MarkerExists(sys, id))
         && task.parent.children == map[] && NoLinks(sys.links, id)
      then Goto(sys, id, task.(pc := Checked(task.pc.found)))
      else sys
    else sys
  }

  predicate MayAcquire(sys: Sys, id: Identity, repair: bool) {
    id in sys.active && (if repair then sys.active[id].pc.Remembered? else sys.active[id].pc.Checked?)
  }

  /** TryAcquireLock or TryAcquireLockForRepair. */
  function AcquireParent(sys: Sys, id: Identity, repair: bool): Sys {
    if MayAcquire(sys, id, repair) then
      var task := sys.active[id];
      var outcome := TryAcquireLock(sys.store, id, task.parent, repair, sys.next);
      if outcome.Done? then
        Goto(CommitLock(sys, Acquire(id, task.parent, repair), ForWork), id,
             task.(parent := outcome.result.parent, pc := if outcome.result.acquired then Owned(repair) else Reuse))
      else Leave(sys, id)
    else sys
  }

  /** The acquisition committed, its response was lost. */
  function AcquireLost(sys: Sys, id: Identity, repair: bool): Sys {
    if MayAcquire(sys, id, repair) then
      Leave(CommitLock(sys, Acquire(id, sys.active[id].parent, repair), ForWork), id)
        .(releases := sys.releases + {Pending(id, sys.next, true)})
    else sys
  }

  /** Recorded and local children are checked again under the lock. */
  function Recheck(sys: Sys, id: Identity): Sys {
    if At(sys, id, Owned(false)) && sys.active[id].parent.children == map[] && NoLinks(sys.links, id)
    then Goto(sys, id, sys.active[id].(pc := Cleared))
    else sys
  }

  /** ResetParentDirectory stopped before it emptied the directory. */
  function ResetPartly(sys: Sys, id: Identity, markerSurvives: bool): Sys {
    if At(sys, id, Cleared) && DirOf(sys, id).present
    then SetDir(sys, id, Dir(true, if markerSurvives then DirOf(sys, id).marker else NoMarker, Unfinished))
    else sys
  }

  function Reset(sys: Sys, id: Identity): Sys {
    if At(sys, id, Cleared)
    then Goto(SetDir(sys, id, Dir(true, NoMarker, Unfinished)), id, sys.active[id].(pc := Fetching))
    else sys
  }

  /** Validation never accepts files that are not a finished copy. */
  function Validate(sys: Sys, id: Identity, valid: bool): Sys {
    if At(sys, id, Owned(true)) && (valid ==> DirOf(sys, id).present && DirOf(sys, id).files == Whole)
    then Goto(sys, id, sys.active[id].(pc := if valid then Fetched else Corrupt))
    else sys
  }

  function FailAttached(sys: Sys, id: Identity): Sys {
    if At(sys, id, Corrupt) then
      var outcome := MarkChildrenFailed(sys.store, id, sys.active[id].parent);
      if outcome.Done? then
        Goto(Commit(sys, FailChildren(id, sys.active[id].parent)), id,
             sys.active[id].(parent := outcome.result, pc := ChildrenFailed))
      else sys
    else sys
  }

  /** HasUnrecordedChildren: unknown links forbid replacing the files. */
  function CheckUnrecorded(sys: Sys, id: Identity): Sys {
    if At(sys, id, ChildrenFailed)
      && (forall p :: p in sys.links && sys.links[p] == id ==> p in sys.active[id].parent.children.Values)
    then Goto(sys, id, sys.active[id].(pc := Replaceable))
    else sys
  }

  function RemoveMarker(sys: Sys, id: Identity): Sys {
    if At(sys, id, Replaceable)
    then Goto(SetDir(sys, id, DirOf(sys, id).(marker := NoMarker)), id, sys.active[id].(pc := Unmarked))
    else sys
  }

  function Replace(sys: Sys, id: Identity): Sys {
    if At(sys, id, Unmarked)
    then Goto(SetDir(sys, id, Dir(true, NoMarker, Unfinished)), id, sys.active[id].(pc := Fetching))
    else sys
  }

  function FinishFetch(sys: Sys, id: Identity): Sys {
    if At(sys, id, Fetching)
    then Goto(SetDir(sys, id, DirOf(sys, id).(files := Whole)), id, sys.active[id].(pc := Fetched))
    else sys
  }

  function WriteMarker(sys: Sys, id: Identity, torn: bool): Sys {
    if At(sys, id, Fetched) then
      if torn then SetDir(sys, id, DirOf(sys, id).(marker := Torn))
      else Goto(SetDir(sys, id, DirOf(sys, id).(marker := Wrote(sys.active[id].parent.lockId))), id,
                sys.active[id].(pc := Marked))
    else sys
  }

  function PublishReady(sys: Sys, id: Identity): Sys {
    if At(sys, id, Marked) && SetStatus(sys.store, id, sys.active[id].parent, Ready).Done?
    then Goto(Commit(sys, Release(id, sys.active[id].parent, Ready)), id, sys.active[id].(pc := Attaching))
    else sys
  }

  predicate HoldsWorkLock(pc: PC) {
    pc.Owned? || pc.Cleared? || pc.Corrupt? || pc.ChildrenFailed? || pc.Replaceable? || pc.Unmarked? || pc.Fetching?
      || pc.Fetched?
  }

  /** releaseParentLock: commits or not, and is heard of or remembered for a retry. */
  function ReleaseLock(sys: Sys, id: Identity, interrupted: bool, commits: bool, heard: bool): Sys
    requires id in sys.active
  {
    var task := sys.active[id];
    var done := if commits then Commit(sys, Release(id, task.parent, if interrupted then Updating else Failed))
      else sys;
    Leave(done, id).(releases := if commits && heard then sys.releases
                     else sys.releases + {Pending(id, task.parent.lockId, interrupted)})
  }

  /** finishParentWithError and its relatives. */
  function GiveUp(sys: Sys, id: Identity, interrupted: bool, commits: bool, heard: bool): Sys {
    if id in sys.active && HoldsWorkLock(sys.active[id].pc) then ReleaseLock(sys, id, interrupted, commits, heard)
    else sys
  }

  /** reuseParent: a Ready parent, or one whose owner's marker allows finishing it. */
  function ReuseParent(sys: Sys, id: Identity): Sys {
    if id in sys.active && (sys.active[id].pc == Remembered(true) || sys.active[id].pc == Reuse) then
      var task := sys.active[id];
      if task.parent.status == Ready then
        Goto(sys, id, task.(pc := Attaching))
      else if task.parent.status == Updating && MarkerMatches(sys, id, task.parent.lockId)
        && SetStatus(sys.store, id, task.parent, Ready).Done? then
        Goto(Commit(sys, Release(id, task.parent, Ready)), id, task.(pc := Attaching))
      else Leave(sys, id)
    else sys
  }

  function Link(sys: Sys, id: Identity): Sys {
    if At(sys, id, Attaching) && MarkerExists(sys, id) then
      var task := sys.active[id];
      if task.path in sys.links && sys.links[task.path] != id then Leave(sys, id)
      else Goto(sys.(links := sys.links[task.path := id]), id, task.(pc := Linked(task.path !in sys.links)))
    else sys
  }

  function Reference(sys: Sys, id: Identity, blocked: bool): Sys {
    if id in sys.active && sys.active[id].pc.Linked? then
      var task := sys.active[id];
      Goto(Commit(sys, AddReference(id, task.parent, task.key, task.uid, task.path, blocked)), id,
           task.(pc := Referenced(task.pc.created)))
    else sys
  }

  function Rollback(sys: Sys, id: Identity): Sys {
    if At(sys, id, Referenced(true)) && sys.active[id].path in sys.links && sys.links[sys.active[id].path] == id
    then Leave(sys.(links := sys.links - {sys.active[id].path}), id)
    else sys
  }

  // ---- delete ----

  /** A cleanup receipt for this directory is on the child's record. */
  function ResumeReceipt(sys: Sys, id: Identity): Sys {
    if At(sys, id, Start) then
      var task := sys.active[id];
      if task.key in sys.store.children && sys.store.children[task.key].pendingDeletion.Some? then
        var receipt := sys.store.children[task.key].pendingDeletion.value;
        if receipt.identity == id && receipt.parentPath == Home(sys.root, id) && receipt.childPath == task.path then
          Goto(sys, id, task.(pc := Deleting, receipt := receipt))
        else Leave(sys, id)
      else sys
    else sys
  }

  /** removeModelReference of an idle parent, for deletion or (preserve) for release without file changes. */
  function Detach(sys: Sys, id: Identity, preserve: bool, retain: bool, blocked: bool): Sys {
    if At(sys, id, Start) && id in sys.store.parents && !sys.store.parents[id].BlocksNewOperation() then
      var task, parent := sys.active[id], sys.store.parents[id];
      var pending := !preserve || retain;
      var outcome :=
        RemoveModelReference(sys.store, id, parent, task.key, task.uid, task.path, pending, blocked, sys.next);
      if outcome.Done? && outcome.result.removed then
        var done := CommitLock(sys, RemoveReference(id, parent, task.key, task.uid, task.path, pending, blocked),
                               ForDeletion(parent.status));
        if preserve then
          if outcome.result.last
          then Goto(done, id, task.(pc := Preserving(parent.status), parent := outcome.result.artifact))
          else Leave(done, id)
        else
          Goto(done, id, task.(pc := Deleting, receipt :=
            PendingDeletion(id, parent.localPath, task.path, task.uid, outcome.result.artifact.lockId,
                            parent.status == Ready, Some(parent.status))))
      else Leave(sys, id)
    else sys
  }

  function ClaimReceipt(sys: Sys, id: Identity, proven: bool): Sys {
    if At(sys, id, Deleting) then
      var task := sys.active[id];
      var absent := !DirOf(sys, id).present;
      if ClaimPendingDeletion(sys.store, task.key, task.uid, task.receipt, absent, proven).Done? then
        Goto(Commit(sys, Claim(task.key, task.uid, task.receipt, absent, proven)), id,
             task.(receipt := task.receipt.(uid := task.uid)))
      else Leave(sys, id)
    else sys
  }

  function OwnParent(sys: Sys, id: Identity, blocked: bool): Sys {
    if At(sys, id, Deleting) then
      var task := sys.active[id];
      var absent := !DirOf(sys, id).present;
      var outcome := DeletionParent(sys.store, task.key, task.receipt, absent, blocked, sys.next);
      if outcome.Done? then
        var found := outcome.result.lookup.Found?;
        Goto(CommitLock(sys, OwnDeletion(task.key, task.receipt, absent, blocked),
                        ForDeletion(outcome.result.receipt.StatusBeforeDeletion())), id,
             task.(pc := DeletionOwned(found), parent := if found then outcome.result.lookup.parent
                   else Blank(sys.root, id), receipt := outcome.result.receipt))
      else Leave(sys, id)
    else sys
  }

  /** This task owns the deletion of an unreferenced parent. */
  predicate OwnsUnreferenced(task: Task, found: bool) {
    found && task.parent.children == map[] && task.receipt.parentLock != NO_LOCK
  }

  /** releaseParentDeletionLock's target status. */
  function ReleaseTarget(before: ParentStatus, markerExists: bool): ParentStatus {
    if before == Ready && markerExists then Ready else if before == Updating then Updating else Failed
  }

  function ReleaseDeletion(sys: Sys, id: Identity, before: ParentStatus, commits: bool, heard: bool): Sys
    requires id in sys.active
  {
    var task := sys.active[id];
    var target := ReleaseTarget(before, MarkerExists(sys, id));
    if target == Ready then
      if commits && heard then Goto(Commit(sys, Release(id, task.parent, Ready)), id, task.(pc := DeletionDone))
      else Leave(if commits then Commit(sys, Release(id, task.parent, Ready)) else sys, id)
    else if commits && heard then
      Goto(Commit(sys, Release(id, task.parent, target)), id, task.(pc := DeletionDone))
    else ReleaseLock(sys, id, target == Updating, commits, heard)
  }

  /** The child path is still wanted by another consumer: keep the link, give the parent back. */
  function KeepForConsumer(sys: Sys, id: Identity, commits: bool, heard: bool): Sys {
    if id in sys.active && sys.active[id].pc.DeletionOwned? then
      if OwnsUnreferenced(sys.active[id], sys.active[id].pc.found)
      then ReleaseDeletion(sys, id, sys.active[id].receipt.StatusBeforeDeletion(), commits, heard)
      else Goto(sys, id, sys.active[id].(pc := DeletionDone))
    else sys
  }

  function Unlink(sys: Sys, id: Identity): Sys {
    if id in sys.active && sys.active[id].pc.DeletionOwned? then
      var task := sys.active[id];
      if task.path !in sys.links then Goto(sys, id, task.(pc := Unlinked(task.pc.found)))
      else if sys.links[task.path] == id
      then Goto(sys.(links := sys.links - {task.path}), id, task.(pc := Unlinked(task.pc.found)))
      else Leave(sys, id)
    else sys
  }

  /** deleteLockedParent: scan for links, then for download intents. */
  function ScanLinks(sys: Sys, id: Identity): Sys {
    if id in sys.active && sys.active[id].pc.Unlinked? then
      var task := sys.active[id];
      if !OwnsUnreferenced(task, task.pc.found) then Goto(sys, id, task.(pc := DeletionDone))
      else if task.parent.status == Updating && task.parent.lockId != NO_LOCK && NoLinks(sys.links, id)
      then Goto(sys, id, task.(pc := Scanned))
      else sys
    else sys
  }

  function ScanIntents(sys: Sys, id: Identity): Sys {
    if At(sys, id, Scanned) && !HasPendingDownloads(sys.store, id, sys.active[id].parent.localPath)
    then Goto(sys, id, sys.active[id].(pc := Unused))
    else sys
  }

  /** Links or intents were found: preserve the files and end deletion ownership. */
  function KeepForOthers(sys: Sys, id: Identity, commits: bool, heard: bool): Sys {
    if id in sys.active
      && ((sys.active[id].pc.Unlinked? && OwnsUnreferenced(sys.active[id], sys.active[id].pc.found))
          || sys.active[id].pc.Scanned?)
    then ReleaseDeletion(sys, id, sys.active[id].receipt.StatusBeforeDeletion(), commits, heard)
    else sys
  }

  /** RemoveParentDirectory stopped half-way. */
  function RemovePartly(sys: Sys, id: Identity, markerSurvives: bool): Sys {
    if At(sys, id, Unused) && DirOf(sys, id).present
    then SetDir(sys, id, Dir(true, if markerSurvives then DirOf(sys, id).marker else NoMarker, PartlyRemoved))
    else sys
  }

  function RemoveDir(sys: Sys, id: Identity): Sys {
    if At(sys, id, Unused)
    then Goto(SetDir(sys, id, ABSENT), id, sys.active[id].(pc := Removed))
    else sys
  }

  function DeleteRecord(sys: Sys, id: Identity): Sys {
    if At(sys, id, Removed)
    then Goto(Commit(sys, DeleteParent(id, sys.active[id].parent)), id, sys.active[id].(pc := DeletionDone))
    else sys
  }

  function FinishReceipt(sys: Sys, id: Identity, blocked: bool): Sys {
    if At(sys, id, DeletionDone)
    then Leave(Commit(sys, FinishDeletion(sys.active[id].key, sys.active[id].receipt, blocked)), id)
    else sys
  }

  /** releaseHfArtifactChild with preserve: the last reference is gone, the parent stays. */
  function GiveBack(sys: Sys, id: Identity, commits: bool, heard: bool): Sys {
    if id in sys.active && sys.active[id].pc.Preserving?
    then ReleaseDeletion(sys, id, sys.active[id].pc.before, commits, heard)
    else sys
  }

  /** removeUnreferencedChildSymlink: no recorded relationship, only a local link. */
  function RemoveStrayLink(sys: Sys, id: Identity): Sys {
    if At(sys, id, Start) then
      var task := sys.active[id];
      if && (task.key in sys.store.children ==> sys.store.children[task.key].parentKey.None?)
         && (id in sys.store.parents ==>
             task.key !in sys.store.parents[id].children && !sys.store.parents[id].BlocksNewOperation())
         && task.path in sys.links && sys.links[task.path] == id
      then Leave(sys.(links := sys.links - {task.path}), id)
      else Leave(sys, id)
    else sys
  }

  /** reconcileHfArtifactCleanup: turn this directory's intent into a deletion receipt. */
  function AbandonIntent(sys: Sys, id: Identity, intent: PendingDownload, blocked: bool, proven: bool): Sys {
    if At(sys, id, Start) && intent.identity == id
    then Leave(Commit(sys, BeginDownloadDeletion(sys.active[id].key, sys.active[id].uid, intent, blocked, proven)), id)
    else sys
  }

  // ---- runs ----

  datatype Action =
    | ABegin(id: Identity, key: ModelKey, uid: Uid, path: Path, seen: Parent)
    | AReturn(id: Identity)
    | ARetryRelease(id: Identity, pending: Pending)
    | AForgetRelease(pending: Pending)
    | AFinishFromMarker(id: Identity)
    | ARecoverInterrupted(id: Identity, expected: Parent)
    | AReadParent(id: Identity)
    | ARememberIntent(id: Identity, blocked: bool)
    | ACheckInitial(id: Identity)
    | AAcquire(id: Identity, repair: bool)
    | AAcquireLost(id: Identity, repair: bool)
    | ARecheck(id: Identity)
    | AResetPartly(id: Identity, markerSurvives: bool)
    | AReset(id: Identity)
    | AValidate(id: Identity, valid: bool)
    | AFailAttached(id: Identity)
    | ACheckUnrecorded(id: Identity)
    | ARemoveMarker(id: Identity)
    | AReplace(id: Identity)
    | AFinishFetch(id: Identity)
    | AWriteMarker(id: Identity, torn: bool)
    | APublishReady(id: Identity)
    | AGiveUp(id: Identity, interrupted: bool, commits: bool, heard: bool)
    | AReuseParent(id: Identity)
    | ALink(id: Identity)
    | AReference(id: Identity, blocked: bool)
    | ARollback(id: Identity)
    | AResumeReceipt(id: Identity)
    | ADetach(id: Identity, preserve: bool, retain: bool, blocked: bool)
    | AClaimReceipt(id: Identity, proven: bool)
    | AOwnParent(id: Identity, blocked: bool)
    | AKeepForConsumer(id: Identity, commits: bool, heard: bool)
    | AUnlink(id: Identity)
    | AScanLinks(id: Identity)
    | AScanIntents(id: Identity)
    | AKeepForOthers(id: Identity, commits: bool, heard: bool)
    | ARemovePartly(id: Identity, markerSurvives: bool)
    | ARemoveDir(id: Identity)
    | ADeleteRecord(id: Identity)
    | AFinishReceipt(id: Identity, blocked: bool)
    | AGiveBack(id: Identity, commits: bool, heard: bool)
    | ARemoveStrayLink(id: Identity)
    | AAbandonIntent(id: Identity, intent: PendingDownload, blocked: bool, proven: bool)
    | AModelWrite(op: Op)

  /** Ordinary model writes take no parent lock; Deleted is never written as a status. */
  predicate IsModelWrite(op: Op) {
    (op.StatusWrite? && op.model != ModelDeleted) || op.MetadataWrite? || op.ProgressWrite? || op.Remove?
  }

  /** Steps that find, reuse or acquire the parent. */
  predicate IsAcquiring(a: Action) {
    a.AReadParent? || a.ARememberIntent? || a.ACheckInitial? || a.AAcquire? || a.AAcquireLost? || a.ARecheck?
      || a.AReuseParent?
  }

  function AcquiringAct(sys: Sys, a: Action): Sys
    requires IsAcquiring(a)
  {
    match a
    case AReadParent(id) => ReadParent(sys, id)
    case ARememberIntent(id, blocked) => RememberIntent(sys, id, blocked)
    case ACheckInitial(id) => CheckInitial(sys, id)
    case AAcquire(id, repair) => AcquireParent(sys, id, repair)
    case AAcquireLost(id, repair) => AcquireLost(sys, id, repair)
    case ARecheck(id) => Recheck(sys, id)
    case AReuseParent(id) => ReuseParent(sys, id)
  }

  /** Steps that publish, attach or give up. */
  predicate IsAttaching(a: Action) {
    a.AFailAttached? || a.APublishReady? || a.AGiveUp? || a.ALink? || a.AReference? || a.ARollback?
  }

  function AttachingAct(sys: Sys, a: Action): Sys
    requires IsAttaching(a)
  {
    match a
    case AFailAttached(id) => FailAttached(sys, id)
    case APublishReady(id) => PublishReady(sys, id)
    case AGiveUp(id, interrupted, commits, heard) => GiveUp(sys, id, interrupted, commits, heard)
    case ALink(id) => Link(sys, id)
    case AReference(id, blocked) => Reference(sys, id, blocked)
    case ARollback(id) => Rollback(sys, id)
  }

  /** Steps that change or check the files under a work lock. */
  predicate IsFilling(a: Action) {
    a.AResetPartly? || a.AReset? || a.AValidate? || a.ACheckUnrecorded? || a.ARemoveMarker? || a.AReplace?
      || a.AFinishFetch? || a.AWriteMarker?
  }

  function FillingAct(sys: Sys, a: Action): Sys
    requires IsFilling(a)
  {
    match a
    case AResetPartly(id, markerSurvives) => ResetPartly(sys, id, markerSurvives)
    case AReset(id) => Reset(sys, id)
    case AValidate(id, valid) => Validate(sys, id, valid)
    case ACheckUnrecorded(id) => CheckUnrecorded(sys, id)
    case ARemoveMarker(id) => RemoveMarker(sys, id)
    case AReplace(id) => Replace(sys, id)
    case AFinishFetch(id) => FinishFetch(sys, id)
    case AWriteMarker(id, torn) => WriteMarker(sys, id, torn)
  }

  /** Steps that take over a deletion or give the parent back. */
  predicate IsReleasing(a: Action) {
    a.AResumeReceipt? || a.ADetach? || a.AClaimReceipt? || a.AOwnParent? || a.AKeepForConsumer? || a.AKeepForOthers?
      || a.AGiveBack?
  }

  function ReleasingAct(sys: Sys, a: Action): Sys
    requires IsReleasing(a)
  {
    match a
    case AResumeReceipt(id) => ResumeReceipt(sys, id)
    case ADetach(id, preserve, retain, blocked) => Detach(sys, id, preserve, retain, blocked)
    case AClaimReceipt(id, proven) => ClaimReceipt(sys, id, proven)
    case AOwnParent(id, blocked) => OwnParent(sys, id, blocked)
    case AKeepForConsumer(id, commits, heard) => KeepForConsumer(sys, id, commits, heard)
    case AKeepForOthers(id, commits, heard) => KeepForOthers(sys, id, commits, heard)
    case AGiveBack(id, commits, heard) => GiveBack(sys, id, commits, heard)
  }

  /** Steps that remove links, files and records. */
  predicate IsRemoving(a: Action) {
    a.AUnlink? || a.AScanLinks? || a.AScanIntents? || a.ARemovePartly? || a.ARemoveDir? || a.ADeleteRecord?
      || a.AFinishReceipt? || a.ARemoveStrayLink? || a.AAbandonIntent?
  }

  function RemovingAct(sys: Sys, a: Action): Sys
    requires IsRemoving(a)
  {
    match a
    case AUnlink(id) => Unlink(sys, id)
    case AScanLinks(id) => ScanLinks(sys, id)
    case AScanIntents(id) => ScanIntents(sys, id)
    case ARemovePartly(id, markerSurvives) => RemovePartly(sys, id, markerSurvives)
    case ARemoveDir(id) => RemoveDir(sys, id)
    case ADeleteRecord(id) => DeleteRecord(sys, id)
    case AFinishReceipt(id, blocked) => FinishReceipt(sys, id, blocked)
    case ARemoveStrayLink(id) => RemoveStrayLink(sys, id)
    case AAbandonIntent(id, intent, blocked, proven) => AbandonIntent(sys, id, intent, blocked, proven)
  }

  function CommonAct(sys: Sys, a: Action): Sys {
    match a
    case ABegin(id, key, uid, path, seen) => Begin(sys, id, key, uid, path, seen)
    case AReturn(id) => Leave(sys, id)
    case ARetryRelease(id, pending) => RetryRelease(sys, id, pending)
    case AForgetRelease(pending) => sys.(releases := sys.releases - {pending})
    case AFinishFromMarker(id) => FinishFromMarker(sys, id)
    case ARecoverInterrupted(id, expected) => RecoverInterrupted(sys, id, expected)
    case AModelWrite(op) => if IsModelWrite(op) then Commit(sys, op) else sys
    case _ => sys
  }

  function Act(sys: Sys, a: Action): Sys {
    if IsAcquiring(a) then AcquiringAct(sys, a)
    else if IsAttaching(a) then AttachingAct(sys, a)
    else if IsFilling(a) then FillingAct(sys, a)
    else if IsReleasing(a) then ReleasingAct(sys, a)
    else if IsRemoving(a) then RemovingAct(sys, a)
    else CommonAct(sys, a)
  }
}
