/**
 The repository mutations (hf_artifact_repository.go, hf_artifact_repository_repair.go,
 hf_artifact_pending_download.go, hf_artifact_pending_deletion.go, configmap_reconciler.go), each
 as the function one ConfigMap compare-and-swap applies to the store.

 `blocked` stands for isModelMutationBlocked of the child's key and UID; `proven` for a successful
 current-UID check against the lister with the UID not invalidated; `newLock` for the UUID the call
 generated; `conflict` for a cached shared state that the stored child no longer shows.
 */
module HfRepository {
  import opened HfTypes

  datatype Acquisition = Acquisition(parent: Parent, acquired: bool)
  datatype Removal = Removal(artifact: Parent, removed: bool, last: bool)
  datatype Lookup = LookupError | NotFound | Found(id: Identity, parent: Parent)
  datatype DeletionOwner = DeletionOwner(lookup: Lookup, receipt: PendingDeletion)

  // ---- parent locks ----

  function TryAcquireLock(s: Store, id: Identity, expected: Parent, forRepair: bool,
                          newLock: LockId): (r: Outcome<Acquisition>)
  {
    if !CanonicalPath(id, expected.localPath) then
      Rejected
    else if id !in s.parents then
      var stored := expected.(status := Updating, lockId := newLock, lastCompleted := NO_LOCK);
      Done(s.(parents := s.parents[id := stored]), Acquisition(stored, true))
    else
      var stored := s.parents[id];
      if stored.BlocksNewOperation() then
        if stored.localPath != expected.localPath then
          Rejected
        else
          Done(s, Acquisition(stored, false))
      else if stored.status == Ready && stored.localPath == expected.localPath && !forRepair then
        Done(s, Acquisition(stored, false))
      else
        var owned :=
          stored.(localPath := expected.localPath, status := Updating, lockId := newLock, lastCompleted := NO_LOCK);
        Done(s.(parents := s.parents[id := owned]), Acquisition(owned, true))
  }

  /** requireStoredHfArtifactEntry: the record exists at the path the caller knows. */
  predicate IsStored(s: Store, id: Identity, expected: Parent) {
    id in s.parents && s.parents[id].localPath == expected.localPath
  }

  predicate OwnsLock(stored: Parent, expected: Parent) {
    stored.status == Updating && expected.lockId != NO_LOCK && stored.lockId == expected.lockId
  }

  /** hfArtifactRepairChild: both reference directions and the path the owner saw. */
  predicate IsRepairChild(s: Store, key: ModelKey, id: Identity, stored: Parent, expected: Parent) {
    && key in stored.children && stored.children[key] != ""
    && key in expected.children && expected.children[key] == stored.children[key]
    && key in s.children && s.children[key].parentKey == Some(id)
  }

  /** hfArtifactChildStatusesToRestore: saved statuses of children that are still Failed. */
  function StatusesToRestore(s: Store, id: Identity, stored: Parent, expected: Parent): (m: map<ModelKey, ModelStatus>)
  {
    map key | key in stored.saved && IsRepairChild(s, key, id, stored, expected)
      && s.children[key].status == ModelFailed
      :: stored.saved[key]
  }

  function WithStatuses(children: map<ModelKey, Child>, statuses: map<ModelKey, ModelStatus>): (r: map<ModelKey, Child>)
  {
    map key | key in children ::
      if key in statuses then children[key].(status := statuses[key]) else children[key]
  }

  /** MarkReady, MarkFailed and MarkInterrupted (target Updating). */
  function SetStatus(s: Store, id: Identity, expected: Parent, status: ParentStatus): (r: Outcome<()>)
  {
    if !CanonicalPath(id, expected.localPath) || !IsStored(s, id, expected) then
      Rejected
    else
      var stored := s.parents[id];
      if stored.status == status && stored.lockId == NO_LOCK then
        if expected.lockId != NO_LOCK && stored.lastCompleted == expected.lockId then Done(s, ()) else Rejected
      else if !OwnsLock(stored, expected) then
        Rejected
      else
        var released := stored.(status := status, lastCompleted := expected.lockId, lockId := NO_LOCK);
        if status == Ready then
          var children := WithStatuses(s.children, StatusesToRestore(s, id, stored, expected));
          Done(Store(s.parents[id := released.(saved := map[])], children), ())
        else
          Done(s.(parents := s.parents[id := released]), ())
  }

  /** The children MarkChildrenFailedForRepair changes. */
  predicate FailsForRepair(s: Store, key: ModelKey, id: Identity, stored: Parent, expected: Parent) {
    IsRepairChild(s, key, id, stored, expected) && s.children[key].status != ModelDeleted
  }

  function SavedForRepair(s: Store, id: Identity, stored: Parent, expected: Parent): (m: map<ModelKey, ModelStatus>)
  {
    stored.saved + map key |
      key in stored.children && FailsForRepair(s, key, id, stored, expected) &&
      (key !in stored.saved || s.children[key].status != ModelFailed)
      :: s.children[key].status
  }

  function MarkChildrenFailed(s: Store, id: Identity, expected: Parent): (r: Outcome<Parent>)
  {
    if !CanonicalPath(id, expected.localPath) || !IsStored(s, id, expected) || !OwnsLock(s.parents[id], expected) then
      Rejected
    else
      var stored := s.parents[id];
      var saved := SavedForRepair(s, id, stored, expected);
      var children := map key | key in s.children ::
        if FailsForRepair(s, key, id, stored, expected) then s.children[key].(status := ModelFailed)
        else s.children[key];
      var marked := stored.(saved := saved);
      Done(Store(s.parents[id := marked], children), marked)
  }

  // ---- references ----

  function AddModelReference(s: Store, id: Identity, expected: Parent, key: ModelKey, uid: Uid, path: Path,
                             blocked: bool): (r: Outcome<()>)
  {
    if !CanonicalPath(id, expected.localPath) || key == "" || path == "" then
      Rejected
    else if blocked then
      Done(s, ())
    else if !IsStored(s, id, expected) || s.parents[id].status != Ready || key !in s.children then
      Rejected
    else
      var stored, model := s.parents[id], s.children[key];
      if model.pendingDeletion.Some? then
        Rejected
      else if model.pendingDownload.Some?
        && model.pendingDownload.value != PendingDownload(id, stored.localPath, path, uid) then
        Rejected
      else if model.parentKey.Some? && model.parentKey.value != id then
        Rejected
      else if key in stored.children && stored.children[key] != path then
        Rejected
      else
        Done(Store(s.parents[id := stored.(children := stored.children[key := path])],
                   s.children[key := model.(parentKey := Some(id), pendingDownload := None)]), ())
  }

  /** The record without this child; the last one's removal passes it to a deletion owner. */
  function LeftBehind(p: Parent, key: ModelKey, lock: LockId): Parent {
    var left := p.(children := p.children - {key}, saved := p.saved - {key});
    if left.children == map[] then left.(status := Updating, lockId := lock, lastCompleted := NO_LOCK) else left
  }

  function DetachReceipt(id: Identity, p: Parent, left: Parent, uid: Uid, path: Path): PendingDeletion {
    PendingDeletion(id, p.localPath, path, uid, left.lockId, p.status == Ready, Some(p.status))
  }

  /** removeModelReference; `pending` asks for a cleanup receipt in the same write. */
  function RemoveModelReference(s: Store, id: Identity, expected: Parent, key: ModelKey, uid: Uid, path: Path,
                                pending: bool, blocked: bool, newLock: LockId): (r: Outcome<Removal>)
  {
    var nothing := Removal(expected, false, false);
    if !CanonicalPath(id, expected.localPath) || path == "" then
      Rejected
    else if blocked then
      Done(s, nothing)
    else if id !in s.parents then
      if key in s.children && s.children[key].parentKey == Some(id) then Rejected else Done(s, nothing)
    else if !IsStored(s, id, expected) || s.parents[id].BlocksNewOperation() then
      Rejected
    else
      var stored := s.parents[id];
      var listed := key in stored.children;
      if key !in s.children then
        if listed then Rejected else Done(s, nothing)
      else
        var model := s.children[key];
        var names := model.parentKey == Some(id);
        if model.pendingDeletion.Some? then
          Rejected
        else if model.parentKey.Some? && !names then
          if listed then Rejected else Done(s, nothing)
        else if listed != names then
          Rejected
        else if !listed then
          Done(s, nothing)
        else if stored.children[key] == "" || stored.children[key] != path then
          Rejected
        else
          var left := LeftBehind(stored, key, newLock);
          var receipt := if pending then Some(DetachReceipt(id, stored, left, uid, path)) else model.pendingDeletion;
          var freed := model.(parentKey := None, pendingDeletion := receipt);
          Done(Store(s.parents[id := left], s.children[key := freed]), Removal(left, true, left.children == map[]))
  }

  function DeleteIfUnreferenced(s: Store, id: Identity, expected: Parent): (r: Outcome<bool>)
  {
    if !CanonicalPath(id, expected.localPath) then
      Rejected
    else if id !in s.parents then
      Done(s, false)
    else if !IsStored(s, id, expected) then
      Rejected
    else
      var stored := s.parents[id];
      if stored.children != map[] || stored.status != Updating then
        Done(s, false)
      else if !OwnsLock(stored, expected) then
        Rejected
      else
        Done(s.(parents := s.parents - {id}), true)
  }

  /** parentForChildEntry: both relationship directions from one snapshot. */
  function ParentForChild(s: Store, key: ModelKey, child: Child): (r: Lookup)
  {
    match child.parentKey
    case None =>
      if child.pendingDeletion.Some? then
        var receipt := child.pendingDeletion.value;
        if CanonicalPath(receipt.identity, receipt.parentPath) then
          Found(receipt.identity, ReceiptParent(receipt, key))
        else LookupError
      else NotFound
    case Some(id) =>
      if id !in s.parents then LookupError
      else
        var parent := s.parents[id];
        if !CanonicalPath(id, parent.localPath) || key !in parent.children || parent.children[key] == ""
        then LookupError
        else Found(id, parent)
  }

  function ReceiptParent(receipt: PendingDeletion, key: ModelKey): (p: Parent)
  {
    Parent(receipt.parentPath, Updating, receipt.parentLock, NO_LOCK, map[key := receipt.childPath], map[])
  }

  // ---- download intents ----

  function RememberDownload(s: Store, id: Identity, parentPath: DirPath, key: ModelKey, uid: Uid, childPath: Path,
                            blocked: bool): (r: Outcome<()>)
  {
    var expected := PendingDownload(id, parentPath, childPath, uid);
    if blocked || key !in s.children || s.children[key].pendingDeletion.Some? then
      Rejected
    else
      var child := s.children[key];
      if child.parentKey.Some? then
        if ParentForChild(s, key, child).LookupError? then Rejected else Done(s, ())
      else if child.pendingDownload.Some? && child.pendingDownload.value != expected then
        Rejected
      else
        Done(s.(children := s.children[key := child.(pendingDownload := Some(expected))]), ())
  }

  function BeginPendingDownloadDeletion(s: Store, key: ModelKey, uid: Uid, expected: PendingDownload, blocked: bool,
                                        proven: bool): (r: Outcome<()>)
  {
    if (uid != expected.uid || blocked) && (uid == "" || !proven) then
      Rejected
    else if key !in s.children then
      Rejected
    else
      var child := s.children[key];
      var receipt := expected.DeletionReceipt();
      if child.pendingDownload.None? && child.parentKey.None? && child.pendingDeletion == Some(receipt) then
        Done(s, ())
      else if child.parentKey.Some? || child.pendingDeletion.Some? || child.pendingDownload != Some(expected) then
        Rejected
      else
        Done(s.(children := s.children[key := child.(pendingDownload := None, pendingDeletion := Some(receipt))]), ())
  }

  /** hasPendingDownloads: some child still intends to use this parent directory. */
  predicate HasPendingDownloads(s: Store, id: Identity, localPath: DirPath) {
    exists key :: key in s.children && NamesDirectory(s.children[key], id, localPath)
  }

  predicate NamesDirectory(child: Child, id: Identity, localPath: DirPath) {
    child.pendingDownload.Some? && child.pendingDownload.value.identity == id
      && child.pendingDownload.value.parentPath == localPath
  }

  // ---- deletion receipts ----

  predicate HoldsReceipt(s: Store, key: ModelKey, receipt: PendingDeletion) {
    key in s.children && s.children[key].parentKey.None? && s.children[key].pendingDeletion == Some(receipt)
  }

  function PendingDeletionParent(s: Store, key: ModelKey, receipt: PendingDeletion, parentAbsent: bool): (r: Lookup)
  {
    var id := receipt.identity;
    if id !in s.parents then
      NotFound
    else
      var parent := s.parents[id];
      if !CanonicalPath(id, parent.localPath) || key in parent.children then
        LookupError
      else if parent.localPath != receipt.parentPath then
        if !parentAbsent
          || (parent.status == Updating && parent.lockId == NO_LOCK && parent.lastCompleted == NO_LOCK) then
          LookupError
        else NotFound
      else Found(id, parent)
  }

  /** A receipt never bypasses a different owner. */
  predicate ForeignOwner(parent: Parent, receipt: PendingDeletion) {
    parent.BlocksNewOperation() && (receipt.parentLock == NO_LOCK || parent.lockId != receipt.parentLock)
  }

  function ClaimPendingDeletion(s: Store, key: ModelKey, uid: Uid, receipt: PendingDeletion, parentAbsent: bool,
                                proven: bool): (r: Outcome<()>)
  {
    if uid == "" || !proven || !HoldsReceipt(s, key, receipt) then
      Rejected
    else
      var lookup := PendingDeletionParent(s, key, receipt, parentAbsent);
      if lookup.LookupError? || (lookup.Found? && ForeignOwner(lookup.parent, receipt)) then
        Rejected
      else
        var child := s.children[key];
        Done(s.(children := s.children[key := child.(pendingDeletion := Some(receipt.(uid := uid)))]), ())
  }

  /** Resumes the receipt's owner, or records a new one when the parent has become unreferenced. */
  function DeletionParent(s: Store, key: ModelKey, receipt: PendingDeletion, parentAbsent: bool, blocked: bool,
                          newLock: LockId): (r: Outcome<DeletionOwner>)
  {
    if blocked || !HoldsReceipt(s, key, receipt) then
      Rejected
    else
      match PendingDeletionParent(s, key, receipt, parentAbsent)
      case LookupError => Rejected
      case NotFound => Done(s, DeletionOwner(NotFound, receipt))
      case Found(id, parent) =>
        if parent.BlocksNewOperation() then
          if ForeignOwner(parent, receipt) then Rejected else Done(s, DeletionOwner(Found(id, parent), receipt))
        else if parent.children != map[] then
          Done(s, DeletionOwner(Found(id, parent), receipt))
        else
          var next := receipt.(parentWasReady := parent.status == Ready, statusBefore := Some(parent.status),
                               parentLock := newLock);
          var owned := parent.(status := Updating, lockId := newLock, lastCompleted := NO_LOCK);
          var child := s.children[key].(pendingDeletion := Some(next));
          Done(Store(s.parents[id := owned], s.children[key := child]), DeletionOwner(Found(id, owned), next))
  }

  function FinishPendingDeletion(s: Store, key: ModelKey, receipt: PendingDeletion, blocked: bool): (r: Outcome<()>)
  {
    if blocked || key !in s.children then
      Rejected
    else
      var child := s.children[key];
      if child.pendingDeletion.None? then
        Done(s, ())
      else if child.parentKey.Some? || child.pendingDeletion != Some(receipt) then
        Rejected
      else
        Done(s.(children := s.children[key := child.(pendingDeletion := None)]), ())
  }

  // ---- ordinary model writes ----

  /** validateHfArtifactChildMutation: a listed child must be present and name the parent that lists it. */
  predicate ChildMutationAllowed(s: Store, key: ModelKey, conflict: bool) {
    && !conflict
    && forall id :: id in s.parents && key in s.parents[id].children ==>
         key in s.children && s.children[key].parentKey == Some(id)
  }

  /** The cached record shows a reference, an intent or a receipt that the stored one lacks. */
  predicate SharedStateLost(s: Store, key: ModelKey, cached: Option<Child>) {
    cached.Some? &&
    (|| (cached.value.parentKey.Some? && (key !in s.children || s.children[key].parentKey.None?))
     || (cached.value.pendingDownload.Some? && (key !in s.children || s.children[key].pendingDownload.None?))
     || (cached.value.pendingDeletion.Some? && (key !in s.children || s.children[key].pendingDeletion.None?)))
  }

  function EntryOrNew(s: Store, key: ModelKey, name: string, status: ModelStatus): (child: Child)
  {
    if key in s.children then s.children[key] else Child(name, status, None, None, None, None, None)
  }

  /** A Ready write is withheld while the model's shared parent is not Ready. */
  predicate ReadyWithheld(s: Store, child: Child, status: ModelStatus) {
    status == ModelReady && child.parentKey.Some? &&
    (child.parentKey.value !in s.parents || s.parents[child.parentKey.value].status != Ready)
  }

  function WriteStatus(s: Store, key: ModelKey, name: string, status: ModelStatus, blocked: bool,
                       conflict: bool): (r: Outcome<()>)
  {
    if blocked then
      Done(s, ())
    else if !ChildMutationAllowed(s, key, conflict) then
      Rejected
    else if status == ModelDeleted then
      Done(s.(children := s.children - {key}), ())
    else
      var child := EntryOrNew(s, key, name, status);
      if ReadyWithheld(s, child, status) then
        Rejected
      else
        var progress := if status == ModelReady || status == ModelFailed then None else child.progress;
        Done(s.(children := s.children[key := child.(status := status, progress := progress)]), ())
  }

  function WriteMetadata(s: Store, key: ModelKey, name: string, config: string, blocked: bool,
                         conflict: bool): (r: Outcome<()>)
  {
    if blocked then
      Done(s, ())
    else if !ChildMutationAllowed(s, key, conflict) then
      Rejected
    else
      Done(s.(children := s.children[key := EntryOrNew(s, key, name, ModelReady).(config := Some(config))]), ())
  }

  function WriteProgress(s: Store, key: ModelKey, name: string, progress: Option<string>, blocked: bool,
                         conflict: bool): (r: Outcome<()>)
  {
    if blocked then
      Done(s, ())
    else if !ChildMutationAllowed(s, key, conflict) then
      Rejected
    else
      Done(s.(children := s.children[key := EntryOrNew(s, key, name, ModelUpdating).(progress := progress)]), ())
  }

  /** The final removal of DeleteModelFromConfigMap. */
  function RemoveModel(s: Store, key: ModelKey, uid: Uid): (r: Outcome<()>)
  {
    if key !in s.children then
      Done(s, ())
    else
      var child := s.children[key];
      if child.parentKey.Some? || child.pendingDownload.Some? ||
         (child.pendingDeletion.Some? && child.pendingDeletion.value.uid != uid) then
        Rejected
      else
        Done(s.(children := s.children - {key}), ())
  }
}
