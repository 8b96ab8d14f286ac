/**
 The repository mutations as they run: closures that edit the ConfigMap's records in place, some of
 them in loops over a parent's children (hf_artifact_repository.go, hf_artifact_repository_repair.go,
 hf_artifact_pending_download.go, hf_artifact_pending_deletion.go). An error leaves the records alone.
 */
module HfConfigMap {
  import opened HfTypes
  import opened HfRepository
  import opened HfRuns
  import opened Maps

  /** Every parent record but this one is the same. */
  ghost predicate OnlyRecord(s: Store, t: Store, id: Identity) {
    forall i :: i != id ==> Get(t.parents, i) == Get(s.parents, i)
  }

  /** Every child record but this one is the same. */
  ghost predicate OnlyChild(s: Store, t: Store, key: ModelKey) {
    forall k :: k != key ==> Get(t.children, k) == Get(s.children, k)
  }

  /** Nobody owns this record. */
  predicate Free(s: Store, id: Identity) {
    id in s.parents ==> s.parents[id].lockId == NO_LOCK
  }

  // ---- the invariant under the current lock number ----

  /** A lock number that was not handed out need not be counted. */
  lemma NotIssued(t: Store, next: LockId)
    requires Inv(World(t, next + 1)) && next != NO_LOCK
    requires forall id :: id in t.parents ==> t.parents[id].lockId < next && t.parents[id].lastCompleted < next
    ensures Inv(World(t, next))
  {
  }

  predicate IssuesNoLock(op: Op) {
    !op.Acquire? && !op.RemoveReference? && !op.OwnDeletion?
  }

  lemma OldLocksOnly(w: World, op: Op, id: Identity)
    requires Inv(w) && IssuesNoLock(op) && id in Step(w, op).store.parents
    ensures Step(w, op).store.parents[id].lockId < w.next && Step(w, op).store.parents[id].lastCompleted < w.next
  {
    if op.Release? {
      ReleaseEffect(w.store, op.id, op.expected, op.status);
    } else if op.FailChildren? {
      FailChildrenEffect(w.store, op.id, op.expected);
    }
  }

  lemma KeepsValid(s: Store, next: LockId, op: Op)
    requires Inv(World(s, next)) && Legal(World(s, next), op) && IssuesNoLock(op)
    ensures Inv(World(ApplyOp(s, op, next), next))
  {
    StepKeepsInv(World(s, next), op);
    forall id | id in ApplyOp(s, op, next).parents
      ensures ApplyOp(s, op, next).parents[id].lockId < next && ApplyOp(s, op, next).parents[id].lastCompleted < next
    {
      OldLocksOnly(World(s, next), op, id);
    }
    NotIssued(ApplyOp(s, op, next), next);
  }

  lemma Unchanged(s: Store, next: LockId)
    requires Inv(World(s, next))
    ensures Inv(World(s, next + 1))
  {
  }

  lemma FreshLock(s: Store, next: LockId)
    requires Inv(World(s, next))
    ensures !Held(s, next)
  {
  }

  lemma NobodyNames(s: Store, next: LockId, id: Identity)
    requires Inv(World(s, next)) && (id in s.parents ==> s.parents[id].children == map[])
    ensures forall key :: !Names(s, id, key)
  {
    forall key ensures !Names(s, id, key) { assert Lists(s, id, key) <==> Names(s, id, key); }
  }

  lemma NobodyLists(s: Store, next: LockId, key: ModelKey)
    requires Inv(World(s, next)) && (key in s.children ==> s.children[key].parentKey.None?)
    ensures forall id :: !Lists(s, id, key)
  {
    forall id ensures !Lists(s, id, key) { assert Lists(s, id, key) <==> Names(s, id, key); }
  }

  // ---- status writes ----

  lemma StatusWriteMeans(s: Store, next: LockId, key: ModelKey, name: string, status: ModelStatus, blocked: bool,
                         conflict: bool)
    requires Inv(World(s, next))
    ensures var t := StoreOf(WriteStatus(s, key, name, status, blocked, conflict), s);
            && (status != ModelDeleted || (forall id :: !Names(s, id, key)) ==> Inv(World(t, next)))
            && (key in t.children && t.children[key].parentKey.Some? ==> Lists(t, t.children[key].parentKey.value, key))
  {
    var op := StatusWrite(key, name, status, blocked, conflict);
    if status != ModelDeleted {
      KeepsValid(s, next, op);
    } else if forall id :: !Names(s, id, key) {
      assert key in s.children ==> s.children[key].parentKey.None? by {
        if key in s.children && s.children[key].parentKey.Some? {
          assert Names(s, s.children[key].parentKey.value, key);
        }
      }
      var t := ApplyOp(s, op, next);
      ChildChangeKeeps(World(s, next), t, key);
      NotIssued(t, next);
    }
    if key in s.children && s.children[key].parentKey.Some? {
      assert Names(s, s.children[key].parentKey.value, key) && Lists(s, s.children[key].parentKey.value, key);
    }
  }

  // ---- detaching a child ----

  /**
   Both sides of the reference are gone and nothing else changed. The last child's removal takes the
   lock of a record that nobody owned; the receipt, if one was asked for, names that lock and the
   status the record had.
   */
  ghost predicate Detached(s: Store, t: Store, next: LockId, id: Identity, key: ModelKey, pending: bool, r: Removal) {
    && Lists(s, id, key) && Names(s, id, key) && !Lists(t, id, key) && !Names(t, id, key)
    && OnlyRecord(s, t, id) && OnlyChild(s, t, key) && id in t.parents && t.parents[id] == r.artifact
    && (r.last <==> forall k :: !Names(t, id, k))
    && Free(s, id)
    && (if r.last then HoldsLock(t, id, next) && !Held(s, next)
        else Free(t, id) && t.parents[id].status == s.parents[id].status)
    && (pending ==>
        key in t.children && t.children[key].pendingDeletion.Some?
          && ReceiptFor(s, t, id, key, t.children[key].pendingDeletion.value))
  }

  predicate ReceiptFor(s: Store, t: Store, id: Identity, key: ModelKey, receipt: PendingDeletion)
    requires id in s.parents && id in t.parents
  {
    HoldsReceipt(t, key, receipt) && receipt.identity == id && receipt.parentPath == t.parents[id].localPath
    && receipt.parentLock == t.parents[id].lockId && receipt.StatusBeforeDeletion() == s.parents[id].status
  }

  lemma LastIffNobodyNames(t: Store, next: LockId, id: Identity)
    requires Inv(World(t, next)) && id in t.parents
    ensures t.parents[id].children == map[] <==> forall k :: !Names(t, id, k)
  {
    if t.parents[id].children == map[] {
      NobodyNames(t, next, id);
    } else {
      var k :| k in t.parents[id].children;
      assert Lists(t, id, k) && Names(t, id, k);
    }
  }

  function SetFree(p: Parent, left: Parent, c: Child, id: Identity, uid: Uid, path: Path, pending: bool): Child {
    c.(parentKey := None,
       pendingDeletion := if pending then Some(DetachReceipt(id, p, left, uid, path)) else c.pendingDeletion)
  }

  function Removed(s: Store, next: LockId, id: Identity, key: ModelKey, uid: Uid, path: Path, pending: bool): Store
    requires id in s.parents && key in s.children
  {
    var left := LeftBehind(s.parents[id], key, next);
    Store(s.parents[id := left],
          s.children[key := SetFree(s.parents[id], left, s.children[key], id, uid, path, pending)])
  }

  predicate MayDetach(s: Store, id: Identity, key: ModelKey) {
    && id in s.parents && key in s.children && key in s.parents[id].children && s.children[key].parentKey == Some(id)
    && !s.parents[id].BlocksNewOperation() && s.children[key].pendingDeletion.None?
  }

  lemma RemovalDetaches(s: Store, next: LockId, id: Identity, expected: Parent, key: ModelKey, uid: Uid, path: Path,
                        pending: bool, blocked: bool)
    requires var o := RemoveModelReference(s, id, expected, key, uid, path, pending, blocked, next);
             o.Done? && o.result.removed
    ensures MayDetach(s, id, key)
    ensures var left := LeftBehind(s.parents[id], key, next);
            RemoveModelReference(s, id, expected, key, uid, path, pending, blocked, next)
            == Done(Removed(s, next, id, key, uid, path, pending), Removal(left, true, left.children == map[]))
  {
  }

  lemma RemovedKeepsInv(s: Store, next: LockId, id: Identity, key: ModelKey, uid: Uid, path: Path, pending: bool)
    requires Inv(World(s, next)) && MayDetach(s, id, key)
    ensures var left := LeftBehind(s.parents[id], key, next);
            Inv(World(Removed(s, next, id, key, uid, path, pending), if left.children == map[] then next + 1 else next))
  {
    var left := LeftBehind(s.parents[id], key, next);
    var t := Removed(s, next, id, key, uid, path, pending);
    ReferenceChangeKeeps(World(s, next), t, id, key);
    if left.children != map[] { NotIssued(t, next); }
  }

  lemma RemovedIsDetached(s: Store, next: LockId, id: Identity, key: ModelKey, uid: Uid, path: Path, pending: bool)
    requires Inv(World(s, next)) && MayDetach(s, id, key)
    ensures var left := LeftBehind(s.parents[id], key, next);
            Detached(s, Removed(s, next, id, key, uid, path, pending), next, id, key, pending,
                     Removal(left, true, left.children == map[]))
  {
    var left := LeftBehind(s.parents[id], key, next);
    var t := Removed(s, next, id, key, uid, path, pending);
    RemovedKeepsInv(s, next, id, key, uid, path, pending);
    LastIffNobodyNames(t, if left.children == map[] then next + 1 else next, id);
    FreshLock(s, next);
  }

  // ---- failing the children of a repaired parent ----

  /** The record lists this child under the path its owner saw. */
  predicate KnownTo(s: Store, id: Identity, expected: Parent, key: ModelKey) {
    Lists(s, id, key) && key in expected.children && expected.children[key] == s.parents[id].children[key]
    && key in s.children && s.children[key].status != ModelDeleted
  }

  /** The child is Failed, and saved is what it showed, or what an earlier repair saved if it was Failed already. */
  predicate FailedAndSaved(s: Store, t: Store, id: Identity, key: ModelKey)
    requires id in s.parents && key in s.children
  {
    && key in t.children && t.children[key] == s.children[key].(status := ModelFailed)
    && Lists(t, id, key) && key in t.parents[id].saved
    && t.parents[id].saved[key] ==
         if key in s.parents[id].saved && s.children[key].status == ModelFailed then s.parents[id].saved[key]
         else s.children[key].status
  }

  lemma FailingMeans(s: Store, next: LockId, id: Identity, expected: Parent)
    requires Inv(World(s, next))
    ensures var o := MarkChildrenFailed(s, id, expected);
            o.Done? ==>
              && HoldsLock(s, id, expected.lockId) && HoldsLock(o.store, id, expected.lockId)
              && forall key :: if KnownTo(s, id, expected, key) then FailedAndSaved(s, o.store, id, key)
                               else Get(o.store.children, key) == Get(s.children, key)
  {
    var o := MarkChildrenFailed(s, id, expected);
    if o.Done? {
      FailChildrenEffect(s, id, expected);
      forall key ensures if KnownTo(s, id, expected, key) then FailedAndSaved(s, o.store, id, key)
                         else Get(o.store.children, key) == Get(s.children, key)
      {
        assert Lists(s, id, key) <==> Names(s, id, key);
        assert KnownTo(s, id, expected, key) <==> FailsForRepair(s, key, id, s.parents[id], expected);
      }
    }
  }

  // ---- exactly when a mutation succeeds ----

  /** The record is there, in this identity's directory, where the caller knows it. */
  predicate KnownAt(s: Store, id: Identity, home: DirPath) {
    home.identity == id && id in s.parents && s.parents[id].localPath == home
  }

  /** Where somebody owns the record, it has to be where the caller knows it. */
  predicate MayAskFor(s: Store, id: Identity, home: DirPath) {
    home.identity == id && (Free(s, id) || s.parents[id].localPath == home)
  }

  /** Nobody owns the record, and there is work to do: it is missing, not Ready, elsewhere, or to be repaired. */
  predicate MayTake(s: Store, id: Identity, home: DirPath, forRepair: bool) {
    home.identity == id && Free(s, id)
      && (id !in s.parents || s.parents[id].status != Ready || s.parents[id].localPath != home || forRepair)
  }

  lemma AcquiresIff(s: Store, next: LockId, id: Identity, expected: Parent, forRepair: bool)
    requires Inv(World(s, next))
    ensures var o := TryAcquireLock(s, id, expected, forRepair, next);
            && (o.Done? <==> MayAskFor(s, id, expected.localPath))
            && (o.Done? && o.result.acquired <==> MayTake(s, id, expected.localPath, forRepair))
  {
  }

  /** The owner's last release had this outcome. */
  predicate ReleasedAs(s: Store, id: Identity, lock: LockId, status: ParentStatus)
    requires id in s.parents
  {
    var p := s.parents[id];
    p.lockId == NO_LOCK && p.status == status && lock != NO_LOCK && p.lastCompleted == lock
  }

  lemma ReleasesIff(s: Store, next: LockId, id: Identity, expected: Parent, status: ParentStatus)
    requires Inv(World(s, next))
    ensures SetStatus(s, id, expected, status).Done? <==>
              KnownAt(s, id, expected.localPath)
                && (HoldsLock(s, id, expected.lockId) || ReleasedAs(s, id, expected.lockId, status))
  {
  }

  /**
   The parent is Ready where the caller knows it, and the model has no receipt, no intent but this task's
   own, no other parent and no other path.
   */
  ghost predicate MayAttach(s: Store, id: Identity, home: DirPath, key: ModelKey, uid: Uid, path: Path) {
    && key != "" && path != "" && KnownAt(s, id, home) && s.parents[id].status == Ready
    && key in s.children
    && var child := s.children[key];
       && child.pendingDeletion.None?
       && (child.pendingDownload.None? || child.pendingDownload.value == PendingDownload(id, home, path, uid))
       && (forall other :: Names(s, other, key) ==> other == id)
       && (Lists(s, id, key) ==> s.parents[id].children[key] == path)
  }

  lemma AttachesIff(s: Store, id: Identity, expected: Parent, key: ModelKey, uid: Uid, path: Path)
    ensures AddModelReference(s, id, expected, key, uid, path, false).Done? <==>
              MayAttach(s, id, expected.localPath, key, uid, path)
  {
    if key in s.children && s.children[key].parentKey.Some? { assert Names(s, s.children[key].parentKey.value, key); }
  }

  /** The parent is free and lists the model under this path. */
  predicate MayRemove(s: Store, id: Identity, home: DirPath, key: ModelKey, path: Path) {
    path != "" && KnownAt(s, id, home) && Free(s, id) && Lists(s, id, key) && s.parents[id].children[key] == path
  }

  lemma DetachesIff(s: Store, next: LockId, id: Identity, expected: Parent, key: ModelKey, uid: Uid, path: Path,
                    pending: bool)
    requires Inv(World(s, next))
    ensures var o := RemoveModelReference(s, id, expected, key, uid, path, pending, false, next);
            o.Done? && o.result.removed <==> MayRemove(s, id, expected.localPath, key, path)
  {
    assert Lists(s, id, key) <==> Names(s, id, key);
    assert key in s.children ==> OneRole(s.children[key]);
  }

  lemma DeletesIff(s: Store, next: LockId, id: Identity, expected: Parent)
    requires Inv(World(s, next))
    ensures var o := DeleteIfUnreferenced(s, id, expected);
            o.Done? && o.result <==>
              KnownAt(s, id, expected.localPath) && HoldsLock(s, id, expected.lockId) && forall k :: !Lists(s, id, k)
  {
    if id in s.parents && s.parents[id].children != map[] {
      var k :| k in s.parents[id].children;
      assert Lists(s, id, k);
    }
  }

  lemma FailsIff(s: Store, next: LockId, id: Identity, expected: Parent)
    requires Inv(World(s, next))
    ensures MarkChildrenFailed(s, id, expected).Done? <==>
              KnownAt(s, id, expected.localPath) && HoldsLock(s, id, expected.lockId)
  {
  }

  /** The model is attached somewhere, or its intent is absent or exactly this one. */
  predicate MayRemember(s: Store, key: ModelKey, intent: PendingDownload) {
    && key in s.children && s.children[key].pendingDeletion.None?
    && match s.children[key].parentKey
       case Some(id) => id in s.parents && CanonicalPath(id, s.parents[id].localPath)
       case None => s.children[key].pendingDownload.None? || s.children[key].pendingDownload.value == intent
  }

  lemma RemembersIff(s: Store, next: LockId, id: Identity, home: DirPath, key: ModelKey, uid: Uid, path: Path)
    requires Inv(World(s, next))
    ensures RememberDownload(s, id, home, key, uid, path, false).Done? <==>
              MayRemember(s, key, PendingDownload(id, home, path, uid))
  {
    if key in s.children && s.children[key].parentKey.Some? {
      var pid := s.children[key].parentKey.value;
      assert Names(s, pid, key) && Lists(s, pid, key);
    }
  }

  lemma AbandonsIff(s: Store, next: LockId, key: ModelKey, uid: Uid, intent: PendingDownload, blocked: bool,
                    proven: bool)
    requires Inv(World(s, next))
    ensures BeginPendingDownloadDeletion(s, key, uid, intent, blocked, proven).Done? <==>
              && ((uid == intent.uid && !blocked) || (uid != "" && proven))
              && key in s.children
              && (s.children[key].pendingDownload == Some(intent) || HoldsReceipt(s, key, intent.DeletionReceipt()))
  {
    assert key in s.children ==> OneRole(s.children[key]);
  }

  /** The receipt's parent is gone, free or held by this receipt, or its directory was given up for another. */
  predicate MayResume(s: Store, receipt: PendingDeletion, absent: bool) {
    var id := receipt.identity;
    id in s.parents ==>
      && CanonicalPath(id, s.parents[id].localPath)
      && if s.parents[id].localPath == receipt.parentPath then Free(s, id) || HoldsLock(s, id, receipt.parentLock)
         else absent
  }

  lemma ResumesIff(s: Store, next: LockId, key: ModelKey, uid: Uid, receipt: PendingDeletion, absent: bool)
    requires Inv(World(s, next)) && HoldsReceipt(s, key, receipt)
    ensures ClaimPendingDeletion(s, key, uid, receipt, absent, true).Done? <==>
              uid != "" && MayResume(s, receipt, absent)
    ensures DeletionParent(s, key, receipt, absent, false, next).Done? <==> MayResume(s, receipt, absent)
  {
    var id := receipt.identity;
    assert !Lists(s, id, key) by { assert !Names(s, id, key); }
  }

  /** No parent lists the model without being named by it, and it shows all shared state that is cached. */
  ghost predicate MayWrite(s: Store, key: ModelKey, cached: Option<Child>) {
    && (forall id :: Lists(s, id, key) ==> Names(s, id, key))
    && (cached.Some? ==>
          && (cached.value.parentKey.Some? ==> key in s.children && s.children[key].parentKey.Some?)
          && (cached.value.pendingDownload.Some? ==> key in s.children && s.children[key].pendingDownload.Some?)
          && (cached.value.pendingDeletion.Some? ==> key in s.children && s.children[key].pendingDeletion.Some?))
  }

  /** The parent the model is attached to, if any, is Ready. */
  ghost predicate ParentReady(s: Store, key: ModelKey) {
    forall id :: Names(s, id, key) ==> id in s.parents && s.parents[id].status == Ready
  }

  lemma WritesIff(s: Store, key: ModelKey, name: string, status: ModelStatus, cached: Option<Child>)
    ensures WriteStatus(s, key, name, status, false, SharedStateLost(s, key, cached)).Done? <==>
              MayWrite(s, key, cached) && (status == ModelReady ==> ParentReady(s, key))
  {
    forall id ensures id in s.parents && key in s.parents[id].children <==> Lists(s, id, key) { }
    assert MayWrite(s, key, cached) ==> forall id :: id in s.parents && key in s.parents[id].children ==>
                                          Lists(s, id, key) && Names(s, id, key);
    if key in s.children && s.children[key].parentKey.Some? { assert Names(s, s.children[key].parentKey.value, key); }
  }

  /**
   Metadata and progress writes change that field of the model's record, or create it, wherever a write is
   allowed.
   */
  lemma FieldWrites(s: Store, key: ModelKey, name: string, config: string, progress: Option<string>,
                    cached: Option<Child>)
    requires MayWrite(s, key, cached)
    ensures var lost := SharedStateLost(s, key, cached);
            var m, p := WriteMetadata(s, key, name, config, false, lost),
              WriteProgress(s, key, name, progress, false, lost);
            && m.Done? && p.Done? && m.store.parents == s.parents && p.store.parents == s.parents
            && OnlyChild(s, m.store, key) && OnlyChild(s, p.store, key)
            && key in m.store.children && m.store.children[key].config == Some(config)
            && key in p.store.children && p.store.children[key].progress == progress
            && (key in s.children ==>
                  && m.store.children[key] == s.children[key].(config := Some(config))
                  && p.store.children[key] == s.children[key].(progress := progress))
            && (key !in s.children ==> IsUnshared(m.store.children[key]) && IsUnshared(p.store.children[key]))
  {
    WritesIff(s, key, name, ModelFailed, cached);
  }

  predicate IsUnshared(child: Child) {
    child.parentKey.None? && child.pendingDownload.None? && child.pendingDeletion.None?
  }

  class ConfigMap {
    var parents: map<Identity, Parent>
    var children: map<ModelKey, Child>
    var nextLock: LockId

    /** References two-sided, roles exclusive, locks well-formed and issued. */
    ghost predicate Valid()
      reads this
    {
      Inv(World(State(), nextLock))
    }

    constructor ()
      ensures Valid() && State() == Store(map[], map[])
    {
      parents, children, nextLock := map[], map[], 1;
    }

    function State(): Store
      reads this
    {
      Store(parents, children)
    }

    /** A new UUID. */
    method NewLock() returns (lock: LockId)
      modifies this`nextLock
      ensures lock == old(nextLock) && nextLock == old(nextLock) + 1
    {
      lock := nextLock;
      nextLock := nextLock + 1;
    }

    // ---- locks ----

    method Acquire(id: Identity, expected: Parent, forRepair: bool) returns (ok: bool, result: Acquisition)
      requires Valid() && (id !in parents ==> expected.children == map[] && expected.saved == map[])
      modifies this
      ensures var o := TryAcquireLock(old(State()), id, expected, forRepair, old(nextLock));
              if ok then o == Done(State(), result) else o.Rejected? && State() == old(State())
      ensures ok <==> old(MayAskFor(State(), id, expected.localPath))
      ensures result.acquired <==> old(MayTake(State(), id, expected.localPath, forRepair))
      ensures Valid() && children == old(children) && OnlyRecord(old(State()), State(), id)
      ensures ok ==> id in parents && parents[id] == result.parent && parents[id].localPath == expected.localPath
      ensures !ok ==> !result.acquired
      ensures result.acquired ==>
                old(Free(State(), id)) && HoldsLock(State(), id, old(nextLock)) && !old(Held(State(), nextLock))
      ensures !result.acquired ==>
                State() == old(State()) && (ok ==> parents[id].status == Ready || parents[id].BlocksNewOperation())
      ensures id in old(parents) ==>
                parents[id].children == old(parents[id].children) && parents[id].saved == old(parents[id].saved)
    {
      AcquiresIff(State(), nextLock, id, expected, forRepair);
      StepKeepsInv(World(State(), nextLock), Op.Acquire(id, expected, forRepair));
      Unchanged(State(), nextLock);
      FreshLock(State(), nextLock);
      result := Acquisition(expected, false);
      if !CanonicalPath(id, expected.localPath) {
        return false, result;
      }
      var lock := NewLock();
      if id !in parents {
        var created := expected.(status := Updating, lockId := lock, lastCompleted := NO_LOCK);
        parents := parents[id := created];
        return true, Acquisition(created, true);
      }
      var stored := parents[id];
      if stored.BlocksNewOperation() {
        if stored.localPath != expected.localPath {
          return false, result;
        }
        return true, Acquisition(stored, false);
      }
      if stored.status == Ready && stored.localPath == expected.localPath && !forRepair {
        return true, Acquisition(stored, false);
      }
      stored := stored.(localPath := expected.localPath, status := Updating, lockId := lock, lastCompleted := NO_LOCK);
      parents := parents[id := stored];
      return true, Acquisition(stored, true);
    }

    /** The loop over the saved statuses that decides which still apply. */
    method ChildStatusesToRestore(id: Identity, stored: Parent, expected: Parent)
      returns (statuses: map<ModelKey, ModelStatus>)
      ensures SameMap(statuses, StatusesToRestore(State(), id, stored, expected))
    {
      statuses := map[];
      var todo := stored.saved.Keys;
      while todo != {}
        invariant todo <= stored.saved.Keys
        invariant forall key ::
                    Get(statuses, key) ==
                      if key in todo then None else Get(StatusesToRestore(State(), id, stored, expected), key)
        decreases todo
      {
        var key :| key in todo;
        if IsRepairChild(State(), key, id, stored, expected) && children[key].status == ModelFailed {
          statuses := statuses[key := stored.saved[key]];
        }
        todo := todo - {key};
      }
    }

    /** The loop that writes the restored statuses. */
    method WriteStatuses(statuses: map<ModelKey, ModelStatus>)
      requires statuses.Keys <= children.Keys
      modifies this`children
      ensures SameMap(children, WithStatuses(old(children), statuses))
    {
      var todo := statuses.Keys;
      while todo != {}
        invariant todo <= statuses.Keys <= children.Keys
        invariant forall key ::
                    Get(children, key) ==
                      Get(if key in todo then old(children) else WithStatuses(old(children), statuses), key)
        decreases todo
      {
        var key :| key in todo;
        assert Get(children, key) == Get(old(children), key);
        children := children[key := children[key].(status := statuses[key])];
        todo := todo - {key};
      }
    }

    /** MarkReady, MarkFailed and MarkInterrupted. */
    method SetParentStatus(id: Identity, expected: Parent, status: ParentStatus) returns (ok: bool)
      requires Valid()
      modifies this
      ensures var o := SetStatus(old(State()), id, expected, status);
              if ok then o == Done(State(), ()) else o.Rejected? && State() == old(State())
      ensures ok <==>
                old(KnownAt(State(), id, expected.localPath)
                    && (HoldsLock(State(), id, expected.lockId) || ReleasedAs(State(), id, expected.lockId, status)))
      ensures Valid() && OnlyRecord(old(State()), State(), id)
      ensures ok ==>
                id in parents && parents[id].status == status && Free(State(), id)
                  && parents[id].lastCompleted == expected.lockId
      ensures State() != old(State()) ==>
                old(HoldsLock(State(), id, expected.lockId)) && parents[id].children == old(parents[id].children)
    {
      ReleasesIff(State(), nextLock, id, expected, status);
      KeepsValid(State(), nextLock, Release(id, expected, status));
      if !CanonicalPath(id, expected.localPath) || !IsStored(State(), id, expected) {
        return false;
      }
      var stored := parents[id];
      if stored.status == status && stored.lockId == NO_LOCK {
        return expected.lockId != NO_LOCK && stored.lastCompleted == expected.lockId;
      }
      if stored.status != Updating || expected.lockId == NO_LOCK || stored.lockId != expected.lockId {
        return false;
      }
      if status == Ready {
        var statuses := ChildStatusesToRestore(id, stored, expected);
        SameMapIsEqual(statuses, StatusesToRestore(State(), id, stored, expected));
        ghost var was := children;
        WriteStatuses(statuses);
        SameMapIsEqual(children, WithStatuses(was, statuses));
        stored := stored.(saved := map[]);
      }
      stored := stored.(status := status, lastCompleted := expected.lockId, lockId := NO_LOCK);
      parents := parents[id := stored];
      return true;
    }

    // ---- references ----

    method AddReference(id: Identity, expected: Parent, key: ModelKey, uid: Uid, path: Path, blocked: bool)
      returns (ok: bool)
      requires Valid()
      modifies this
      ensures var o := AddModelReference(old(State()), id, expected, key, uid, path, blocked);
              if ok then o == Done(State(), ()) else o.Rejected? && State() == old(State())
      ensures !blocked ==> (ok <==> old(MayAttach(State(), id, expected.localPath, key, uid, path)))
      ensures Valid() && OnlyRecord(old(State()), State(), id) && OnlyChild(old(State()), State(), key)
      ensures ok && !blocked ==> Lists(State(), id, key) && Names(State(), id, key) && parents[id].children[key] == path
      ensures ok && !blocked ==>
                parents[id].status == Ready && parents[id] == old(parents[id]).(children := parents[id].children)
      ensures ok && !blocked ==>
                children[key].status == old(children[key].status) && children[key].pendingDownload.None?
      ensures blocked ==> State() == old(State())
    {
      AttachesIff(State(), id, expected, key, uid, path);
      KeepsValid(State(), nextLock, Op.AddReference(id, expected, key, uid, path, blocked));
      if !CanonicalPath(id, expected.localPath) || key == "" || path == "" {
        return false;
      }
      if blocked {
        return true;
      }
      if !IsStored(State(), id, expected) || parents[id].status != Ready || key !in children {
        return false;
      }
      var stored, model := parents[id], children[key];
      if model.pendingDeletion.Some? {
        return false;
      }
      if model.pendingDownload.Some?
        && model.pendingDownload.value != PendingDownload(id, stored.localPath, path, uid) {
        return false;
      }
      if model.parentKey.Some? && model.parentKey.value != id {
        return false;
      }
      if key in stored.children && stored.children[key] != path {
        return false;
      }
      parents := parents[id := stored.(children := stored.children[key := path])];
      children := children[key := model.(parentKey := Some(id), pendingDownload := None)];
      return true;
    }

    /** The checks of removeModelReference: an error, nothing to remove, or both sides of the reference are there. */
    method CheckRemoval(id: Identity, expected: Parent, key: ModelKey, path: Path, blocked: bool, ghost uid: Uid,
                        ghost pending: bool)
      returns (ok: bool, present: bool)
      ensures present ==>
                ok && id in parents && key in children && key in parents[id].children
                  && children[key].parentKey == Some(id)
      ensures var o := RemoveModelReference(State(), id, expected, key, uid, path, pending, blocked, nextLock);
              if present then o.Done? && o.result.removed
              else o == if ok then Done(State(), Removal(expected, false, false)) else Rejected
    {
      if !CanonicalPath(id, expected.localPath) || path == "" {
        return false, false;
      }
      if blocked {
        return true, false;
      }
      if id !in parents {
        return key !in children || children[key].parentKey != Some(id), false;
      }
      if !IsStored(State(), id, expected) || parents[id].BlocksNewOperation() {
        return false, false;
      }
      var listed := key in parents[id].children;
      if key !in children {
        return !listed, false;
      }
      var names := children[key].parentKey == Some(id);
      if children[key].pendingDeletion.Some? {
        return false, false;
      }
      if children[key].parentKey.Some? && !names {
        return !listed, false;
      }
      if listed != names {
        return false, false;
      }
      if !listed {
        return true, false;
      }
      if parents[id].children[key] == "" || parents[id].children[key] != path {
        return false, false;
      }
      return true, true;
    }

    /** The edits of removeModelReference. */
    method DetachChild(id: Identity, key: ModelKey, uid: Uid, path: Path, pending: bool) returns (result: Removal)
      requires Valid() && MayDetach(State(), id, key)
      modifies this
      ensures State() == Removed(old(State()), old(nextLock), id, key, uid, path, pending)
      ensures var left := LeftBehind(old(parents[id]), key, old(nextLock));
              result == Removal(left, true, left.children == map[])
      ensures Valid() && Detached(old(State()), State(), old(nextLock), id, key, pending, result)
    {
      RemovedKeepsInv(State(), nextLock, id, key, uid, path, pending);
      RemovedIsDetached(State(), nextLock, id, key, uid, path, pending);
      var stored, model := parents[id], children[key];
      var previous := stored.status;
      stored := stored.(children := stored.children - {key}, saved := stored.saved - {key});
      model := model.(parentKey := None);
      var last := |stored.children| == 0;
      assert last <==> stored.children == map[];
      if last {
        var lock := NewLock();
        stored := stored.(status := Updating, lockId := lock, lastCompleted := NO_LOCK);
      }
      if pending {
        model := model.(pendingDeletion :=
                        Some(PendingDeletion(id, stored.localPath, path, uid, stored.lockId, previous == Ready,
                                             Some(previous))));
      }
      parents := parents[id := stored];
      children := children[key := model];
      result := Removal(stored, true, last);
    }

    method RemoveReference(id: Identity, expected: Parent, key: ModelKey, uid: Uid, path: Path, pending: bool,
                           blocked: bool)
      returns (ok: bool, result: Removal)
      requires Valid()
      modifies this
      ensures var o :=
              RemoveModelReference(old(State()), id, expected, key, uid, path, pending, blocked, old(nextLock));
              if ok then o == Done(State(), result) else o.Rejected? && State() == old(State())
      ensures result.removed <==> !blocked && old(MayRemove(State(), id, expected.localPath, key, path))
      ensures Valid()
      ensures if result.removed then Detached(old(State()), State(), old(nextLock), id, key, pending, result)
              else State() == old(State()) && !result.last
    {
      DetachesIff(State(), nextLock, id, expected, key, uid, path, pending);
      result := Removal(expected, false, false);
      var present;
      ok, present := CheckRemoval(id, expected, key, path, blocked, uid, pending);
      if present {
        RemovalDetaches(State(), nextLock, id, expected, key, uid, path, pending, blocked);
        result := DetachChild(id, key, uid, path, pending);
      }
    }

    method DeleteUnreferenced(id: Identity, expected: Parent) returns (ok: bool, deleted: bool)
      requires Valid()
      modifies this`parents
      ensures var o := DeleteIfUnreferenced(old(State()), id, expected);
              if ok then o == Done(State(), deleted) else o.Rejected? && State() == old(State())
      ensures deleted <==>
                old(KnownAt(State(), id, expected.localPath) && HoldsLock(State(), id, expected.lockId)
                    && forall k :: !Lists(State(), id, k))
      ensures Valid() && OnlyRecord(old(State()), State(), id)
      ensures deleted ==>
                id !in parents && old(HoldsLock(State(), id, expected.lockId)) && forall key :: !Names(State(), id, key)
      ensures !deleted ==> State() == old(State())
    {
      DeletesIff(State(), nextLock, id, expected);
      KeepsValid(State(), nextLock, DeleteParent(id, expected));
      if !CanonicalPath(id, expected.localPath) {
        return false, false;
      }
      if id !in parents {
        return true, false;
      }
      if !IsStored(State(), id, expected) {
        return false, false;
      }
      var stored := parents[id];
      if |stored.children| != 0 || stored.status != Updating {
        return true, false;
      }
      if expected.lockId == NO_LOCK || stored.lockId != expected.lockId {
        return false, false;
      }
      parents := parents - {id};
      return true, true;
    }

    // ---- repair ----

    /** MarkChildrenFailedForRepair: one loop saves and replaces the statuses. */
    method FailChildren(id: Identity, expected: Parent) returns (ok: bool, result: Parent)
      requires Valid()
      modifies this
      ensures var o := MarkChildrenFailed(old(State()), id, expected);
              if ok then o == Done(State(), result) else o.Rejected? && State() == old(State())
      ensures ok <==> old(KnownAt(State(), id, expected.localPath) && HoldsLock(State(), id, expected.lockId))
      ensures Valid() && OnlyRecord(old(State()), State(), id)
      ensures ok ==> old(HoldsLock(State(), id, expected.lockId)) && HoldsLock(State(), id, expected.lockId)
      ensures ok ==> forall key ::
                       if old(KnownTo(State(), id, expected, key)) then FailedAndSaved(old(State()), State(), id, key)
                       else Get(children, key) == old(Get(children, key))
    {
      FailsIff(State(), nextLock, id, expected);
      FailingMeans(State(), nextLock, id, expected);
      KeepsValid(State(), nextLock, Op.FailChildren(id, expected));
      result := expected;
      if !CanonicalPath(id, expected.localPath) || !IsStored(State(), id, expected)
        || !OwnsLock(parents[id], expected) {
        return false, result;
      }
      ghost var s := State();
      var stored := parents[id];
      var saved := FailEach(id, stored, expected);
      SameMapIsEqual(saved, SavedForRepair(s, id, stored, expected));
      SameMapIsEqual(children, FailedForRepair(s, id, stored, expected));
      result := stored.(saved := saved);
      parents := parents[id := result];
      return true, result;
    }

    method FailEach(id: Identity, stored: Parent, expected: Parent) returns (saved: map<ModelKey, ModelStatus>)
      modifies this`children
      ensures SameMap(saved, SavedForRepair(old(State()), id, stored, expected))
      ensures SameMap(children, FailedForRepair(old(State()), id, stored, expected))
    {
      ghost var s := State();
      saved := stored.saved;
      var todo := stored.children.Keys;
      while todo != {}
        invariant todo <= stored.children.Keys && s.parents == parents
        invariant RepairedSoFar(s, id, stored, expected, todo, children, saved)
        decreases todo
      {
        var key :| key in todo;
        RepairOne(s, id, stored, expected, todo, key, children, saved);
        if IsRepairChild(State(), key, id, stored, expected) && children[key].status != ModelDeleted {
          if key !in saved || children[key].status != ModelFailed {
            saved := saved[key := children[key].status];
          }
          children := children[key := children[key].(status := ModelFailed)];
        }
        todo := todo - {key};
      }
      RepairPointwise(s, id, stored, expected, children, saved);
    }

    // ---- intents and receipts ----

    method Remember(id: Identity, parentPath: DirPath, key: ModelKey, uid: Uid, childPath: Path, blocked: bool)
      returns (ok: bool)
      requires Valid()
      modifies this`children
      ensures var o := RememberDownload(old(State()), id, parentPath, key, uid, childPath, blocked);
              if ok then o == Done(State(), ()) else o.Rejected? && State() == old(State())
      ensures ok <==> !blocked && old(MayRemember(State(), key, PendingDownload(id, parentPath, childPath, uid)))
      ensures Valid() && OnlyChild(old(State()), State(), key)
      ensures ok ==> !blocked && key in children && children[key].pendingDeletion.None?
      ensures ok && children[key].parentKey.Some? ==>
                State() == old(State()) && Lists(State(), children[key].parentKey.value, key)
      ensures ok && children[key].parentKey.None? ==>
                children[key] ==
                  old(children[key]).(pendingDownload := Some(PendingDownload(id, parentPath, childPath, uid)))
    {
      RemembersIff(State(), nextLock, id, parentPath, key, uid, childPath);
      KeepsValid(State(), nextLock, Op.Remember(id, parentPath, key, uid, childPath, blocked));
      assert forall i :: Names(State(), i, key) ==> Lists(State(), i, key);
      if blocked || key !in children || children[key].pendingDeletion.Some? {
        return false;
      }
      var child, expected := children[key], PendingDownload(id, parentPath, childPath, uid);
      if child.parentKey.Some? {
        return !ParentForChild(State(), key, child).LookupError?;
      }
      if child.pendingDownload.Some? && child.pendingDownload.value != expected {
        return false;
      }
      children := children[key := child.(pendingDownload := Some(expected))];
      return true;
    }

    /** hasPendingDownloads: the scan for intents that name this directory. */
    method ScanIntents(id: Identity, localPath: DirPath) returns (found: bool)
      ensures found == HasPendingDownloads(State(), id, localPath)
    {
      var todo := children.Keys;
      while todo != {}
        invariant todo <= children.Keys
        invariant forall key :: key in children && key !in todo ==> !NamesDirectory(children[key], id, localPath)
        decreases todo
      {
        var key :| key in todo;
        if NamesDirectory(children[key], id, localPath) {
          return true;
        }
        todo := todo - {key};
      }
      return false;
    }

    /** beginPendingDownloadDeletion: an abandoned intent becomes a deletion receipt. */
    method AbandonIntent(key: ModelKey, uid: Uid, expected: PendingDownload, blocked: bool, proven: bool)
      returns (ok: bool)
      requires Valid()
      modifies this`children
      ensures var o := BeginPendingDownloadDeletion(old(State()), key, uid, expected, blocked, proven);
              if ok then o == Done(State(), ()) else o.Rejected? && State() == old(State())
      ensures ok <==>
                && ((uid == expected.uid && !blocked) || (uid != "" && proven))
                && key in old(children)
                && old(children[key].pendingDownload == Some(expected)
                       || HoldsReceipt(State(), key, expected.DeletionReceipt()))
      ensures Valid() && OnlyChild(old(State()), State(), key)
      ensures ok ==> HoldsReceipt(State(), key, expected.DeletionReceipt()) && children[key].pendingDownload.None?
      ensures ok ==> old(children[key].pendingDownload == Some(expected)) || State() == old(State())
      ensures ok ==> (uid == expected.uid && !blocked) || (uid != "" && proven)
    {
      AbandonsIff(State(), nextLock, key, uid, expected, blocked, proven);
      KeepsValid(State(), nextLock, BeginDownloadDeletion(key, uid, expected, blocked, proven));
      if (uid != expected.uid || blocked) && (uid == "" || !proven) {
        return false;
      }
      if key !in children {
        return false;
      }
      var child, receipt := children[key], expected.DeletionReceipt();
      if child.pendingDownload.None? && child.parentKey.None? && child.pendingDeletion == Some(receipt) {
        return true;
      }
      if child.parentKey.Some? || child.pendingDeletion.Some? || child.pendingDownload != Some(expected) {
        return false;
      }
      children := children[key := child.(pendingDownload := None, pendingDeletion := Some(receipt))];
      return true;
    }

    method ClaimDeletion(key: ModelKey, uid: Uid, receipt: PendingDeletion, parentAbsent: bool, proven: bool)
      returns (ok: bool)
      requires Valid()
      modifies this`children
      ensures var o := ClaimPendingDeletion(old(State()), key, uid, receipt, parentAbsent, proven);
              if ok then o == Done(State(), ()) else o.Rejected? && State() == old(State())
      ensures ok <==>
                uid != "" && proven
                  && old(HoldsReceipt(State(), key, receipt) && MayResume(State(), receipt, parentAbsent))
      ensures Valid() && OnlyChild(old(State()), State(), key)
      ensures ok ==>
                uid != "" && proven && old(HoldsReceipt(State(), key, receipt))
                  && HoldsReceipt(State(), key, receipt.(uid := uid))
      ensures ok ==> children[key].status == old(children[key].status)
      ensures ok && IsStored(State(), receipt.identity, ReceiptParent(receipt, key)) ==>
                !ForeignOwner(parents[receipt.identity], receipt)
    {
      if HoldsReceipt(State(), key, receipt) { ResumesIff(State(), nextLock, key, uid, receipt, parentAbsent); }
      KeepsValid(State(), nextLock, Claim(key, uid, receipt, parentAbsent, proven));
      if uid == "" || !proven || !HoldsReceipt(State(), key, receipt) {
        return false;
      }
      var lookup := PendingDeletionParent(State(), key, receipt, parentAbsent);
      if lookup.LookupError? || (lookup.Found? && ForeignOwner(lookup.parent, receipt)) {
        return false;
      }
      children := children[key := children[key].(pendingDeletion := Some(receipt.(uid := uid)))];
      return true;
    }

    method OwnDeletion(key: ModelKey, receipt: PendingDeletion, parentAbsent: bool, blocked: bool)
      returns (ok: bool, result: DeletionOwner)
      requires Valid()
      modifies this
      ensures var o := DeletionParent(old(State()), key, receipt, parentAbsent, blocked, old(nextLock));
              if ok then o == Done(State(), result) else o.Rejected? && State() == old(State())
      ensures ok <==> !blocked && old(HoldsReceipt(State(), key, receipt) && MayResume(State(), receipt, parentAbsent))
      ensures Valid() && OnlyRecord(old(State()), State(), receipt.identity) && OnlyChild(old(State()), State(), key)
      ensures ok ==> HoldsReceipt(State(), key, result.receipt)
      ensures ok && result.lookup.Found? ==>
                receipt.identity in parents && parents[receipt.identity] == result.lookup.parent
      ensures ok && result.lookup.Found? && parents[receipt.identity].children == map[] ==>
                HoldsLock(State(), receipt.identity, result.receipt.parentLock)
                  && forall k :: !Names(State(), receipt.identity, k)
      ensures State() != old(State()) ==>
                && ok && old(Free(State(), receipt.identity)) && result.receipt.parentLock == old(nextLock)
                   && !old(Held(State(), nextLock))
                && result.receipt.StatusBeforeDeletion() == old(parents[receipt.identity].status)
    {
      if HoldsReceipt(State(), key, receipt) { ResumesIff(State(), nextLock, key, "", receipt, parentAbsent); }
      StepKeepsInv(World(State(), nextLock), Op.OwnDeletion(key, receipt, parentAbsent, blocked));
      FreshLock(State(), nextLock);
      result := DeletionOwner(NotFound, receipt);
      if blocked || !HoldsReceipt(State(), key, receipt) {
        return false, result;
      }
      var lookup := PendingDeletionParent(State(), key, receipt, parentAbsent);
      if lookup.LookupError? {
        return false, result;
      }
      if lookup.NotFound? {
        return true, result;
      }
      var id, parent := lookup.id, lookup.parent;
      if parent.BlocksNewOperation() {
        return !ForeignOwner(parent, receipt), DeletionOwner(lookup, receipt);
      }
      if |parent.children| != 0 {
        return true, DeletionOwner(lookup, receipt);
      }
      var lock := NewLock();
      var next := receipt.(parentWasReady := parent.status == Ready, statusBefore := Some(parent.status),
                           parentLock := lock);
      parent := parent.(status := Updating, lockId := lock, lastCompleted := NO_LOCK);
      parents := parents[id := parent];
      children := children[key := children[key].(pendingDeletion := Some(next))];
      return true, DeletionOwner(Found(id, parent), next);
    }

    method FinishDeletion(key: ModelKey, receipt: PendingDeletion, blocked: bool) returns (ok: bool)
      requires Valid()
      modifies this`children
      ensures var o := FinishPendingDeletion(old(State()), key, receipt, blocked);
              if ok then o == Done(State(), ()) else o.Rejected? && State() == old(State())
      ensures ok <==>
                !blocked && key in old(children)
                  && (old(children[key]).pendingDeletion.None? || old(HoldsReceipt(State(), key, receipt)))
      ensures Valid() && OnlyChild(old(State()), State(), key)
      ensures ok ==> key in children && children[key] == old(children[key]).(pendingDeletion := None)
      ensures State() != old(State()) ==> old(HoldsReceipt(State(), key, receipt))
    {
      KeepsValid(State(), nextLock, Op.FinishDeletion(key, receipt, blocked));
      if blocked || key !in children {
        return false;
      }
      var child := children[key];
      if child.pendingDeletion.None? {
        return true;
      }
      if child.parentKey.Some? || child.pendingDeletion != Some(receipt) {
        return false;
      }
      children := children[key := child.(pendingDeletion := None)];
      return true;
    }

    /** validateHfArtifactChildMutation: the scan over all parents, then the comparison with the cached record. */
    method ValidateChildMutation(key: ModelKey, cached: Option<Child>) returns (ok: bool)
      ensures ok <==> MayWrite(State(), key, cached)
      ensures ok == ChildMutationAllowed(State(), key, SharedStateLost(State(), key, cached))
    {
      var todo := parents.Keys;
      while todo != {}
        invariant todo <= parents.Keys
        invariant forall id :: id in parents && id !in todo && Lists(State(), id, key) ==> Names(State(), id, key)
        decreases todo
      {
        var id :| id in todo;
        if key in parents[id].children && (key !in children || children[key].parentKey != Some(id)) {
          assert Lists(State(), id, key) && !Names(State(), id, key);
          return false;
        }
        todo := todo - {id};
      }
      if cached.None? {
        return true;
      }
      var known := cached.value;
      if known.parentKey.Some? && (key !in children || children[key].parentKey.None?) {
        return false;
      }
      if known.pendingDownload.Some? && (key !in children || children[key].pendingDownload.None?) {
        return false;
      }
      return !(known.pendingDeletion.Some? && (key !in children || children[key].pendingDeletion.None?));
    }

    /** updateModelStatusInConfigMap. */
    method UpdateStatus(key: ModelKey, name: string, status: ModelStatus, blocked: bool, cached: Option<Child>)
      returns (ok: bool)
      requires Valid()
      modifies this`children
      ensures var o :=
              WriteStatus(old(State()), key, name, status, blocked, old(SharedStateLost(State(), key, cached)));
              if ok then o == Done(State(), ()) else o.Rejected? && State() == old(State())
      ensures ok <==>
                blocked || old(MayWrite(State(), key, cached) && (status == ModelReady ==> ParentReady(State(), key)))
      ensures OnlyChild(old(State()), State(), key)
      ensures status != ModelDeleted || old(forall id :: !Names(State(), id, key)) ==> Valid()
      ensures blocked ==> State() == old(State())
      ensures ok && !blocked ==>
                if status == ModelDeleted then key !in children else key in children && children[key].status == status
      ensures ok && !blocked && status == ModelReady && children[key].parentKey.Some? ==>
                Lists(State(), children[key].parentKey.value, key)
                  && parents[children[key].parentKey.value].status == Ready
      ensures ok && !blocked && key in old(children) && status != ModelDeleted ==>
                children[key] == old(children[key]).(status := status, progress := children[key].progress)
    {
      WritesIff(State(), key, name, status, cached);
      StatusWriteMeans(State(), nextLock, key, name, status, blocked, SharedStateLost(State(), key, cached));
      if blocked {
        return true;
      }
      var allowed := ValidateChildMutation(key, cached);
      if !allowed {
        return false;
      }
      if status == ModelDeleted {
        children := children - {key};
        return true;
      }
      var child := if key in children then children[key] else Child(name, status, None, None, None, None, None);
      if status == ModelReady && child.parentKey.Some? {
        if child.parentKey.value !in parents || parents[child.parentKey.value].status != Ready {
          return false;
        }
      }
      child := child.(status := status);
      if status == ModelReady || status == ModelFailed {
        child := child.(progress := None);
      }
      children := children[key := child];
      return true;
    }

    /** The final removal of DeleteModelFromConfigMap. */
    method RemoveEntry(key: ModelKey, uid: Uid) returns (ok: bool)
      requires Valid()
      modifies this`children
      ensures var o := RemoveModel(old(State()), key, uid);
              if ok then o == Done(State(), ()) else o.Rejected? && State() == old(State())
      ensures ok <==>
                key in old(children) ==>
                  && old(children[key]).parentKey.None? && old(children[key]).pendingDownload.None?
                  && (old(children[key]).pendingDeletion.Some? ==> old(children[key]).pendingDeletion.value.uid == uid)
      ensures Valid() && OnlyChild(old(State()), State(), key)
      ensures ok ==> key !in children && forall id :: !Lists(State(), id, key)
    {
      KeepsValid(State(), nextLock, Remove(key, uid));
      if key in children ==> children[key].parentKey.None? { NobodyLists(State(), nextLock, key); }
      if key !in children {
        return true;
      }
      var child := children[key];
      if child.parentKey.Some? || child.pendingDownload.Some?
        || (child.pendingDeletion.Some? && child.pendingDeletion.value.uid != uid) {
        return false;
      }
      children := children - {key};
      return true;
    }
  }

  function FailedForRepair(s: Store, id: Identity, stored: Parent, expected: Parent): map<ModelKey, Child> {
    map key | key in s.children ::
      if FailsForRepair(s, key, id, stored, expected) then s.children[key].(status := ModelFailed) else s.children[key]
  }

  /** One child's record, and its saved status, when the children in `todo` are still to be visited. */
  function FailedSoFar(s: Store, id: Identity, stored: Parent, expected: Parent, todo: set<ModelKey>,
                       key: ModelKey): Option<Child> {
    if key !in s.children then None
    else if key !in todo && FailsForRepair(s, key, id, stored, expected)
    then Some(s.children[key].(status := ModelFailed))
    else Some(s.children[key])
  }

  function SavedSoFar(s: Store, id: Identity, stored: Parent, expected: Parent, todo: set<ModelKey>,
                      key: ModelKey): Option<ModelStatus> {
    if key !in todo && FailsForRepair(s, key, id, stored, expected)
      && (key !in stored.saved || s.children[key].status != ModelFailed)
    then Some(s.children[key].status)
    else Get(stored.saved, key)
  }

  ghost predicate RepairedSoFar(s: Store, id: Identity, stored: Parent, expected: Parent, todo: set<ModelKey>,
                                children: map<ModelKey, Child>, saved: map<ModelKey, ModelStatus>) {
    && (forall key :: Get(children, key) == FailedSoFar(s, id, stored, expected, todo, key))
    && (forall key :: Get(saved, key) == SavedSoFar(s, id, stored, expected, todo, key))
  }

  /** A child still to be visited is as it was; visiting it touches no other. */
  lemma RepairOne(s: Store, id: Identity, stored: Parent, expected: Parent, todo: set<ModelKey>, key: ModelKey,
                  children: map<ModelKey, Child>, saved: map<ModelKey, ModelStatus>)
    requires key in todo && RepairedSoFar(s, id, stored, expected, todo, children, saved)
    ensures Get(children, key) == Get(s.children, key) && Get(saved, key) == Get(stored.saved, key)
    ensures if FailsForRepair(s, key, id, stored, expected)
            then RepairedSoFar(s, id, stored, expected, todo - {key},
                               children[key := s.children[key].(status := ModelFailed)],
                               if key !in saved || s.children[key].status != ModelFailed
                               then saved[key := s.children[key].status] else saved)
            else RepairedSoFar(s, id, stored, expected, todo - {key}, children, saved)
  {
    assert Get(children, key) == FailedSoFar(s, id, stored, expected, todo, key)
           && Get(saved, key) == SavedSoFar(s, id, stored, expected, todo, key);
    forall k | k != key
      ensures FailedSoFar(s, id, stored, expected, todo - {key}, k) == FailedSoFar(s, id, stored, expected, todo, k)
                             && SavedSoFar(s, id, stored, expected, todo - {key}, k) ==
                                SavedSoFar(s, id, stored, expected, todo, k) { }
  }

  lemma RepairPointwise(s: Store, id: Identity, stored: Parent, expected: Parent, children: map<ModelKey, Child>,
                        saved: map<ModelKey, ModelStatus>)
    requires RepairedSoFar(s, id, stored, expected, {}, children, saved)
    ensures SameMap(children, FailedForRepair(s, id, stored, expected))
    ensures SameMap(saved, SavedForRepair(s, id, stored, expected))
  {
    forall key ensures Get(children, key) == Get(FailedForRepair(s, id, stored, expected), key)
                    && Get(saved, key) == Get(SavedForRepair(s, id, stored, expected), key) {
      assert Get(children, key) == FailedSoFar(s, id, stored, expected, {}, key)
             && Get(saved, key) == SavedSoFar(s, id, stored, expected, {}, key);
    }
  }
}
