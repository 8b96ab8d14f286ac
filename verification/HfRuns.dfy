/**
 Whole runs of repository mutations: every interleaving of any number of agents is one sequence of
 committed mutations, because each mutation is one compare-and-swap on the ConfigMap. A mutation
 whose response was lost is a committed mutation here; a rejected one changes nothing.
 */
module HfRuns {
  import opened HfTypes
  import opened HfRepository

  datatype Op =
    | Acquire(id: Identity, expected: Parent, forRepair: bool)
    | Release(id: Identity, expected: Parent, status: ParentStatus)
    | FailChildren(id: Identity, expected: Parent)
    | AddReference(id: Identity, expected: Parent, key: ModelKey, uid: Uid, path: Path, blocked: bool)
    | RemoveReference(id: Identity, expected: Parent, key: ModelKey, uid: Uid, path: Path, pending: bool, blocked: bool)
    | DeleteParent(id: Identity, expected: Parent)
    | Remember(id: Identity, parentPath: DirPath, key: ModelKey, uid: Uid, childPath: Path, blocked: bool)
    | BeginDownloadDeletion(key: ModelKey, uid: Uid, intent: PendingDownload, blocked: bool, proven: bool)
    | Claim(key: ModelKey, uid: Uid, receipt: PendingDeletion, parentAbsent: bool, proven: bool)
    | OwnDeletion(key: ModelKey, receipt: PendingDeletion, parentAbsent: bool, blocked: bool)
    | FinishDeletion(key: ModelKey, receipt: PendingDeletion, blocked: bool)
    | StatusWrite(key: ModelKey, name: string, model: ModelStatus, blocked: bool, conflict: bool)
    | MetadataWrite(key: ModelKey, name: string, config: string, blocked: bool, conflict: bool)
    | ProgressWrite(key: ModelKey, name: string, progress: Option<string>, blocked: bool, conflict: bool)
    | Remove(key: ModelKey, uid: Uid)

  /** The ConfigMap and the supply of unused lock IDs. */
  datatype World = World(store: Store, next: LockId)

  function StoreOf<T>(o: Outcome<T>, s: Store): Store {
    if o.Done? then o.store else s
  }

  function ApplyOp(s: Store, op: Op, newLock: LockId): Store
  {
    match op
    case Acquire(id, expected, forRepair) => StoreOf(TryAcquireLock(s, id, expected, forRepair, newLock), s)
    case Release(id, expected, status) => StoreOf(SetStatus(s, id, expected, status), s)
    case FailChildren(id, expected) => StoreOf(MarkChildrenFailed(s, id, expected), s)
    case AddReference(id, expected, key, uid, path, blocked) =>
      StoreOf(AddModelReference(s, id, expected, key, uid, path, blocked), s)
    case RemoveReference(id, expected, key, uid, path, pending, blocked) =>
      StoreOf(RemoveModelReference(s, id, expected, key, uid, path, pending, blocked, newLock), s)
    case DeleteParent(id, expected) => StoreOf(DeleteIfUnreferenced(s, id, expected), s)
    case Remember(id, parentPath, key, uid, childPath, blocked) =>
      StoreOf(RememberDownload(s, id, parentPath, key, uid, childPath, blocked), s)
    case BeginDownloadDeletion(key, uid, intent, blocked, proven) =>
      StoreOf(BeginPendingDownloadDeletion(s, key, uid, intent, blocked, proven), s)
    case Claim(key, uid, receipt, parentAbsent, proven) =>
      StoreOf(ClaimPendingDeletion(s, key, uid, receipt, parentAbsent, proven), s)
    case OwnDeletion(key, receipt, parentAbsent, blocked) =>
      StoreOf(DeletionParent(s, key, receipt, parentAbsent, blocked, newLock), s)
    case FinishDeletion(key, receipt, blocked) => StoreOf(FinishPendingDeletion(s, key, receipt, blocked), s)
    case StatusWrite(key, name, model, blocked, conflict) =>
      StoreOf(WriteStatus(s, key, name, model, blocked, conflict), s)
    case MetadataWrite(key, name, config, blocked, conflict) =>
      StoreOf(WriteMetadata(s, key, name, config, blocked, conflict), s)
    case ProgressWrite(key, name, progress, blocked, conflict) =>
      StoreOf(WriteProgress(s, key, name, progress, blocked, conflict), s)
    case Remove(key, uid) => StoreOf(RemoveModel(s, key, uid), s)
  }

  function Step(w: World, op: Op): World {
    World(ApplyOp(w.store, op, w.next), w.next + 1)
  }

  /**
   What callers owe: a parent record is created without children (checked exactly by
   `CreationKeepsReferencesIff`), and Deleted is never written as a status, because deletion goes
   through DeleteModelFromConfigMap (checked exactly by `DeletedStatusKeepsReferencesIff`).
   */
  predicate Legal(w: World, op: Op) {
    && (op.Acquire? && op.id !in w.store.parents ==> op.expected.children == map[] && op.expected.saved == map[])
    && (op.StatusWrite? ==> op.model != ModelDeleted)
  }

  predicate Next(w: World, op: Op, w': World) {
    Legal(w, op) && w' == Step(w, op)
  }

  /** `states[i + 1]` is what `ops[i]` made of `states[i]`. */
  datatype Run = Run(states: seq<World>, ops: seq<Op>)
  {
    ghost predicate Valid() {
      |states| == |ops| + 1 && forall i :: Linked(i)
    }

    predicate Linked(i: int)
      requires |states| == |ops| + 1
    {
      0 <= i < |ops| ==> Next(states[i], ops[i], states[i + 1])
    }
  }

  // ---- what every run keeps ----

  predicate Lists(s: Store, id: Identity, key: ModelKey) {
    id in s.parents && key in s.parents[id].children
  }

  predicate Names(s: Store, id: Identity, key: ModelKey) {
    key in s.children && s.children[key].parentKey == Some(id)
  }

  /** A child names a parent exactly when that parent lists the child. */
  ghost predicate TwoSided(s: Store) {
    forall id, key :: Lists(s, id, key) <==> Names(s, id, key)
  }

  /** Attached, download-pending or deletion-pending: at most one of the three. */
  predicate OneRole(c: Child) {
    && !(c.parentKey.Some? && c.pendingDownload.Some?)
    && !(c.parentKey.Some? && c.pendingDeletion.Some?)
    && !(c.pendingDownload.Some? && c.pendingDeletion.Some?)
  }

  predicate LockShape(p: Parent) {
    && (p.lockId != NO_LOCK ==> p.status == Updating && p.lastCompleted == NO_LOCK)
    && (p.status == Updating ==> p.lockId != NO_LOCK || p.lastCompleted != NO_LOCK)
  }

  /** Saved statuses belong to recorded children with paths, and a Ready parent has none. */
  predicate SavedShape(p: Parent) {
    && p.saved.Keys <= p.children.Keys
    && (forall key :: key in p.children ==> p.children[key] != "")
    && (p.status == Ready ==> p.saved == map[])
  }

  predicate HoldsLock(s: Store, id: Identity, lock: LockId) {
    lock != NO_LOCK && id in s.parents && s.parents[id].lockId == lock
  }

  ghost predicate Held(s: Store, lock: LockId) {
    exists id :: HoldsLock(s, id, lock)
  }

  /** Every recorded lock ID was issued before. */
  ghost predicate LocksIssued(w: World) {
    && w.next != NO_LOCK
    && (forall id :: id in w.store.parents ==>
        w.store.parents[id].lockId < w.next && w.store.parents[id].lastCompleted < w.next)
  }

  ghost predicate Inv(w: World) {
    && TwoSided(w.store)
    && (forall key :: key in w.store.children ==> OneRole(w.store.children[key]))
    && (forall id :: id in w.store.parents ==> LockShape(w.store.parents[id]) && SavedShape(w.store.parents[id]))
    && LocksIssued(w)
  }

  /** The record keeps its children; its lock is unchanged, gone or new. */
  predicate Relocked(p: Parent, p': Parent, newLock: LockId) {
    && p'.children == p.children
    && LockShape(p') && SavedShape(p')
    && (p'.lockId == p.lockId || p'.lockId == NO_LOCK || p'.lockId == newLock)
    && (p'.lastCompleted == p.lastCompleted || p'.lastCompleted == p.lockId || p'.lastCompleted == NO_LOCK)
  }

  /** Changing one record's lock and saved statuses, and any child statuses, keeps the invariant. */
  lemma RelockKeeps(w: World, t: Store, id: Identity)
    requires Inv(w) && id in w.store.parents
    requires id in t.parents && t.parents == w.store.parents[id := t.parents[id]]
    requires Relocked(w.store.parents[id], t.parents[id], w.next)
    requires t.children.Keys == w.store.children.Keys
    requires forall k :: k in t.children ==> t.children[k] == w.store.children[k].(status := t.children[k].status)
    ensures Inv(World(t, w.next + 1))
  {
    forall i, k ensures Lists(t, i, k) == Lists(w.store, i, k) && Names(t, i, k) == Names(w.store, i, k) { }
  }

  /** Changing one child record without touching its reference keeps the invariant. */
  lemma ChildChangeKeeps(w: World, t: Store, key: ModelKey)
    requires Inv(w) && t.parents == w.store.parents
    requires t.children == w.store.children - {key}
             || (key in t.children && t.children == w.store.children[key := t.children[key]])
    requires key in t.children ==> OneRole(t.children[key])
    requires (if key in w.store.children then w.store.children[key].parentKey else None) ==
               (if key in t.children then t.children[key].parentKey else None)
    ensures Inv(World(t, w.next + 1))
  {
    forall i, k ensures Lists(t, i, k) == Lists(w.store, i, k) && Names(t, i, k) == Names(w.store, i, k) { }
  }

  /** Attaching or detaching one child on both sides keeps the invariant. */
  lemma ReferenceChangeKeeps(w: World, t: Store, id: Identity, key: ModelKey)
    requires Inv(w) && id in w.store.parents && key in w.store.children
    requires id in t.parents && t.parents == w.store.parents[id := t.parents[id]] && key in t.children
    requires t.children == w.store.children[key := t.children[key]]
    requires LockShape(t.parents[id]) && SavedShape(t.parents[id]) && OneRole(t.children[key])
    requires forall k :: k != key ==> (k in t.parents[id].children <==> k in w.store.parents[id].children)
    requires key in t.parents[id].children <==> t.children[key].parentKey == Some(id)
    requires w.store.children[key].parentKey == None || w.store.children[key].parentKey == Some(id)
    requires t.children[key].parentKey == None || t.children[key].parentKey == Some(id)
    requires t.parents[id].lockId == w.store.parents[id].lockId || t.parents[id].lockId == w.next
    requires t.parents[id].lastCompleted == w.store.parents[id].lastCompleted || t.parents[id].lastCompleted == NO_LOCK
    ensures Inv(World(t, w.next + 1))
  {
    forall i, k ensures Lists(t, i, k) <==> Names(t, i, k) {
      assert Lists(w.store, i, k) <==> Names(w.store, i, k);
    }
  }

  /** Acquiring changes only the one record: its lock fields, its path, or its existence without children. */
  lemma AcquireEffect(s: Store, id: Identity, expected: Parent, forRepair: bool, newLock: LockId)
    requires newLock != NO_LOCK
    requires id !in s.parents ==> expected.children == map[] && expected.saved == map[]
    requires id in s.parents ==> LockShape(s.parents[id]) && SavedShape(s.parents[id])
    ensures
      var t := StoreOf(TryAcquireLock(s, id, expected, forRepair, newLock), s);
      t == s ||
      (id in t.parents && t == s.(parents := s.parents[id := t.parents[id]])
       && (if id in s.parents then Relocked(s.parents[id], t.parents[id], newLock)
           && t.parents[id].saved == s.parents[id].saved
           else t.parents[id] == expected.(status := Updating, lockId := newLock, lastCompleted := NO_LOCK)))
  {
  }

  lemma AcquireKeeps(w: World, op: Op)
    requires op.Acquire? && Inv(w) && Legal(w, op)
    ensures Inv(Step(w, op))
  {
    var s, t := w.store, Step(w, op).store;
    AcquireEffect(s, op.id, op.expected, op.forRepair, w.next);
    if t != s && op.id in s.parents {
      RelockKeeps(w, t, op.id);
    } else {
      forall i, k ensures Lists(t, i, k) == Lists(s, i, k) && Names(t, i, k) == Names(s, i, k) { }
    }
  }

  lemma ReleaseEffect(s: Store, id: Identity, expected: Parent, status: ParentStatus)
    requires id in s.parents ==> LockShape(s.parents[id]) && SavedShape(s.parents[id])
    ensures
      var t := StoreOf(SetStatus(s, id, expected, status), s);
      t == s ||
      (id in s.parents && id in t.parents && OwnsLock(s.parents[id], expected)
       && t.parents == s.parents[id := t.parents[id]]
       && Relocked(s.parents[id], t.parents[id], NO_LOCK) && t.parents[id].lockId == NO_LOCK
       && t.parents[id].saved == (if status == Ready then map[] else s.parents[id].saved)
       && t.children.Keys == s.children.Keys
       && (forall k :: k in t.children ==> t.children[k] == s.children[k].(status := t.children[k].status)))
  {
  }

  lemma FailChildrenEffect(s: Store, id: Identity, expected: Parent)
    requires id in s.parents ==> LockShape(s.parents[id]) && SavedShape(s.parents[id])
    ensures
      var t := StoreOf(MarkChildrenFailed(s, id, expected), s);
      t == s ||
      (id in s.parents && id in t.parents
       && t.parents == s.parents[id := t.parents[id]]
       && t.parents[id] == s.parents[id].(saved := SavedForRepair(s, id, s.parents[id], expected))
       && Relocked(s.parents[id], t.parents[id], NO_LOCK)
       && t.children.Keys == s.children.Keys
       && (forall k :: k in t.children ==> t.children[k] == s.children[k].(status := t.children[k].status)))
  {
  }

  lemma StatusChangesKeep(w: World, op: Op)
    requires op.Release? || op.FailChildren?
    requires Inv(w)
    ensures Inv(Step(w, op))
  {
    var s, t := w.store, Step(w, op).store;
    if op.Release? {
      ReleaseEffect(s, op.id, op.expected, op.status);
    } else {
      FailChildrenEffect(s, op.id, op.expected);
    }
    if t != s {
      RelockKeeps(w, t, op.id);
    }
  }

  lemma AddReferenceKeeps(w: World, op: Op)
    requires op.AddReference? && Inv(w)
    ensures Inv(Step(w, op))
  {
    var s, t := w.store, Step(w, op).store;
    if t != s {
      ReferenceChangeKeeps(w, t, op.id, op.key);
    }
  }

  lemma RemoveReferenceKeeps(w: World, op: Op)
    requires op.RemoveReference? && Inv(w)
    ensures Inv(Step(w, op))
  {
    var s, t := w.store, Step(w, op).store;
    if t != s {
      ReferenceChangeKeeps(w, t, op.id, op.key);
    }
  }

  lemma DeleteParentKeeps(w: World, op: Op)
    requires op.DeleteParent? && Inv(w)
    ensures Inv(Step(w, op))
  {
    var s, t := w.store, Step(w, op).store;
    forall i, k ensures Lists(t, i, k) == Lists(s, i, k) && Names(t, i, k) == Names(s, i, k) { }
  }

  lemma OwnDeletionKeeps(w: World, op: Op)
    requires op.OwnDeletion? && Inv(w)
    ensures Inv(Step(w, op))
  {
    var s, t := w.store, Step(w, op).store;
    if t != s {
      assert !Lists(s, op.receipt.identity, op.key) by { assert !Names(s, op.receipt.identity, op.key); }
      ReferenceChangeKeeps(w, t, op.receipt.identity, op.key);
    }
  }

  lemma IntentWriteKeeps(w: World, op: Op)
    requires op.Remember? || op.BeginDownloadDeletion? || op.Claim? || op.FinishDeletion?
    requires Inv(w)
    ensures Inv(Step(w, op))
  {
    var s, t := w.store, Step(w, op).store;
    if t != s {
      ChildChangeKeeps(w, t, op.key);
    }
  }

  lemma ModelWriteKeeps(w: World, op: Op)
    requires op.MetadataWrite? || op.ProgressWrite? || op.StatusWrite? || op.Remove?
    requires Inv(w) && Legal(w, op)
    ensures Inv(Step(w, op))
  {
    var s, t := w.store, Step(w, op).store;
    if t != s {
      ChildChangeKeeps(w, t, op.key);
    }
  }

  /** One step of any agent keeps references two-sided, roles exclusive and locks well-formed. */
  lemma StepKeepsInv(w: World, op: Op)
    requires Inv(w) && Legal(w, op)
    ensures Inv(Step(w, op))
  {
    match op
    case Acquire(_, _, _) => AcquireKeeps(w, op);
    case Release(_, _, _) => StatusChangesKeep(w, op);
    case FailChildren(_, _) => StatusChangesKeep(w, op);
    case AddReference(_, _, _, _, _, _) => AddReferenceKeeps(w, op);
    case RemoveReference(_, _, _, _, _, _, _) => RemoveReferenceKeeps(w, op);
    case DeleteParent(_, _) => DeleteParentKeeps(w, op);
    case OwnDeletion(_, _, _, _) => OwnDeletionKeeps(w, op);
    case Remember(_, _, _, _, _, _) => IntentWriteKeeps(w, op);
    case BeginDownloadDeletion(_, _, _, _, _) => IntentWriteKeeps(w, op);
    case Claim(_, _, _, _, _) => IntentWriteKeeps(w, op);
    case FinishDeletion(_, _, _) => IntentWriteKeeps(w, op);
    case _ => ModelWriteKeeps(w, op);
  }

  /** Every reachable state of every run. */
  lemma {:induction false} RunKeepsInv(run: Run, n: nat)
    requires run.Valid() && Inv(run.states[0]) && n < |run.states|
    ensures Inv(run.states[n])
  {
    if n > 0 {
      RunKeepsInv(run, n - 1);
      assert run.Linked(n - 1);
      StepKeepsInv(run.states[n - 1], run.ops[n - 1]);
    }
  }

  // ---- what is kept even when a record is created from a stale snapshot ----

  /**
   The weaker duty: a record may be created listing whatever its caller read earlier, as long as that is
   a well-formed record.
   */
  predicate Allowed(w: World, op: Op) {
    && (op.Acquire? && op.id !in w.store.parents ==> SavedShape(op.expected.(status := Updating)))
    && (op.StatusWrite? ==> op.model != ModelDeleted)
  }

  /** A child that names a parent is listed by it. */
  ghost predicate NamedIsListed(s: Store) {
    forall id, key :: Names(s, id, key) ==> Lists(s, id, key)
  }

  /** The invariant without the other direction: a parent may list a child that does not name it. */
  ghost predicate Sane(w: World) {
    && NamedIsListed(w.store)
    && (forall key :: key in w.store.children ==> OneRole(w.store.children[key]))
    && (forall id :: id in w.store.parents ==> LockShape(w.store.parents[id]) && SavedShape(w.store.parents[id]))
    && LocksIssued(w)
  }

  lemma RelockKeepsSane(w: World, t: Store, id: Identity)
    requires Sane(w) && id in w.store.parents
    requires id in t.parents && t.parents == w.store.parents[id := t.parents[id]]
    requires Relocked(w.store.parents[id], t.parents[id], w.next)
    requires t.children.Keys == w.store.children.Keys
    requires forall k :: k in t.children ==> t.children[k] == w.store.children[k].(status := t.children[k].status)
    ensures Sane(World(t, w.next + 1))
  {
    forall i, k ensures Lists(t, i, k) == Lists(w.store, i, k) && Names(t, i, k) == Names(w.store, i, k) { }
  }

  lemma ChildChangeKeepsSane(w: World, t: Store, key: ModelKey)
    requires Sane(w) && t.parents == w.store.parents
    requires t.children == w.store.children - {key}
             || (key in t.children && t.children == w.store.children[key := t.children[key]])
    requires key in t.children ==> OneRole(t.children[key])
    requires key in t.children && t.children[key].parentKey.Some? ==>
               key in w.store.children && w.store.children[key].parentKey == t.children[key].parentKey
    ensures Sane(World(t, w.next + 1))
  {
    forall i, k | Names(t, i, k) ensures Lists(t, i, k) { assert Names(w.store, i, k); }
  }

  lemma ReferenceChangeKeepsSane(w: World, t: Store, id: Identity, key: ModelKey)
    requires Sane(w) && id in w.store.parents && key in w.store.children
    requires id in t.parents && t.parents == w.store.parents[id := t.parents[id]]
    requires key in t.children && t.children == w.store.children[key := t.children[key]]
    requires LockShape(t.parents[id]) && SavedShape(t.parents[id]) && OneRole(t.children[key])
    requires forall k :: k != key ==> (k in t.parents[id].children <==> k in w.store.parents[id].children)
    requires t.children[key].parentKey == Some(id) ==> key in t.parents[id].children
    requires t.children[key].parentKey == None || t.children[key].parentKey == Some(id)
    requires t.parents[id].lockId == w.store.parents[id].lockId || t.parents[id].lockId == w.next
    requires t.parents[id].lastCompleted == w.store.parents[id].lastCompleted || t.parents[id].lastCompleted == NO_LOCK
    ensures Sane(World(t, w.next + 1))
  {
    forall i, k | Names(t, i, k) ensures Lists(t, i, k) {
      if k != key { assert Names(w.store, i, k); }
    }
  }

  lemma CreationEffect(s: Store, id: Identity, expected: Parent, forRepair: bool, newLock: LockId)
    requires id !in s.parents
    ensures
      var t := StoreOf(TryAcquireLock(s, id, expected, forRepair, newLock), s);
      || t == s
      || t == s.(parents := s.parents[id := expected.(status := Updating, lockId := newLock, lastCompleted := NO_LOCK)])
  {
  }

  lemma AcquireKeepsSane(w: World, op: Op)
    requires op.Acquire? && Sane(w) && Allowed(w, op)
    ensures Sane(Step(w, op))
  {
    var s, t := w.store, Step(w, op).store;
    if op.id in s.parents {
      AcquireEffect(s, op.id, op.expected, op.forRepair, w.next);
      if t != s { RelockKeepsSane(w, t, op.id); }
    } else {
      CreationEffect(s, op.id, op.expected, op.forRepair, w.next);
      forall i, k | Names(t, i, k) ensures Lists(t, i, k) { assert Names(s, i, k) && Lists(s, i, k); }
    }
  }

  lemma StatusChangesKeepSane(w: World, op: Op)
    requires (op.Release? || op.FailChildren?) && Sane(w)
    ensures Sane(Step(w, op))
  {
    var s, t := w.store, Step(w, op).store;
    if op.Release? {
      ReleaseEffect(s, op.id, op.expected, op.status);
    } else {
      FailChildrenEffect(s, op.id, op.expected);
    }
    if t != s { RelockKeepsSane(w, t, op.id); }
  }

  lemma AddReferenceKeepsSane(w: World, op: Op)
    requires op.AddReference? && Sane(w)
    ensures Sane(Step(w, op))
  {
    var t := Step(w, op).store;
    if t != w.store { ReferenceChangeKeepsSane(w, t, op.id, op.key); }
  }

  lemma RemoveReferenceKeepsSane(w: World, op: Op)
    requires op.RemoveReference? && Sane(w)
    ensures Sane(Step(w, op))
  {
    var t := Step(w, op).store;
    if t != w.store { ReferenceChangeKeepsSane(w, t, op.id, op.key); }
  }

  lemma DeleteParentKeepsSane(w: World, op: Op)
    requires op.DeleteParent? && Sane(w)
    ensures Sane(Step(w, op))
  {
    var s, t := w.store, Step(w, op).store;
    forall i, k | Names(t, i, k) ensures Lists(t, i, k) { assert Names(s, i, k) && Lists(s, i, k); }
  }

  lemma OwnDeletionKeepsSane(w: World, op: Op)
    requires op.OwnDeletion? && Sane(w)
    ensures Sane(Step(w, op))
  {
    var t := Step(w, op).store;
    if t != w.store { ReferenceChangeKeepsSane(w, t, op.receipt.identity, op.key); }
  }

  lemma ChildWritesKeepSane(w: World, op: Op)
    requires op.Remember? || op.BeginDownloadDeletion? || op.Claim? || op.FinishDeletion?
             || op.MetadataWrite? || op.ProgressWrite? || op.StatusWrite? || op.Remove?
    requires Sane(w) && Allowed(w, op)
    ensures Sane(Step(w, op))
  {
    var t := Step(w, op).store;
    if t != w.store { ChildChangeKeepsSane(w, t, op.key); }
  }

  /** One step of any agent keeps this much, whatever record an acquisition starts from. */
  lemma StepKeepsSane(w: World, op: Op)
    requires Sane(w) && Allowed(w, op)
    ensures Sane(Step(w, op))
  {
    match op
    case Acquire(_, _, _) => AcquireKeepsSane(w, op);
    case Release(_, _, _) => StatusChangesKeepSane(w, op);
    case FailChildren(_, _) => StatusChangesKeepSane(w, op);
    case AddReference(_, _, _, _, _, _) => AddReferenceKeepsSane(w, op);
    case RemoveReference(_, _, _, _, _, _, _) => RemoveReferenceKeepsSane(w, op);
    case DeleteParent(_, _) => DeleteParentKeepsSane(w, op);
    case OwnDeletion(_, _, _, _) => OwnDeletionKeepsSane(w, op);
    case _ => ChildWritesKeepSane(w, op);
  }

  // ---- where the callers' duties matter, exactly ----

  /** A new record keeps references two-sided if and only if the caller's snapshot lists no child. */
  lemma CreationKeepsReferencesIff(w: World, id: Identity, expected: Parent, forRepair: bool)
    requires Inv(w) && id !in w.store.parents && CanonicalPath(id, expected.localPath)
    ensures TwoSided(Step(w, Acquire(id, expected, forRepair)).store) <==> expected.children == map[]
  {
    var s, t := w.store, Step(w, Acquire(id, expected, forRepair)).store;
    if expected.children == map[] {
      forall i, k ensures Lists(t, i, k) == Lists(s, i, k) && Names(t, i, k) == Names(s, i, k) { }
    } else {
      var key :| key in expected.children;
      assert Lists(t, id, key) && Names(t, id, key) == Names(s, id, key) && !Lists(s, id, key);
    }
  }

  /**
   A record read before it lost its last child and was deleted, and acquired for repair afterwards, is
   created anew listing a child that no longer names it.
   */
  lemma StaleSnapshotCreatesOneSidedRecord(w: World, id: Identity, key: ModelKey, uid: Uid)
    requires Inv(w) && id in w.store.parents
    requires var p := w.store.parents[id];
             p.status == Ready && p.children.Keys == {key} && CanonicalPath(id, p.localPath)
    ensures
      var p := w.store.parents[id];
      var w1 := Step(w, RemoveReference(id, p, key, uid, p.children[key], true, false));
      var w2 := Step(w1, DeleteParent(id, p.(lockId := w.next)));
      id !in w2.store.parents && TwoSided(w2.store) && !TwoSided(Step(w2, Acquire(id, p, true)).store)
  {
    var p := w.store.parents[id];
    var op1, op2 := RemoveReference(id, p, key, uid, p.children[key], true, false),
      DeleteParent(id, p.(lockId := w.next));
    assert Lists(w.store, id, key) && Names(w.store, id, key);
    assert p.children - {key} == map[];
    var w1 := Step(w, op1);
    StepKeepsInv(w, op1);
    var w2 := Step(w1, op2);
    StepKeepsInv(w1, op2);
    CreationKeepsReferencesIff(w2, id, p, true);
  }

  /** Writing Deleted as a status keeps references two-sided if and only if the model is not attached. */
  lemma DeletedStatusKeepsReferencesIff(w: World, key: ModelKey, name: string)
    requires Inv(w)
    ensures TwoSided(Step(w, StatusWrite(key, name, ModelDeleted, false, false)).store)
       <==> (key in w.store.children ==> w.store.children[key].parentKey.None?)
  {
    var s, t := w.store, Step(w, StatusWrite(key, name, ModelDeleted, false, false)).store;
    assert ChildMutationAllowed(s, key, false) by {
      forall i | i in s.parents && key in s.parents[i].children ensures Names(s, i, key) { assert Lists(s, i, key); }
    }
    assert t == s.(children := s.children - {key});
    forall i, k ensures Lists(t, i, k) == Lists(s, i, k) && (k != key ==> Names(t, i, k) == Names(s, i, k))
      && !Names(t, i, key) {
    }
    if key in s.children && s.children[key].parentKey.Some? {
      var id := s.children[key].parentKey.value;
      assert Names(s, id, key) && Lists(s, id, key);
      assert Lists(t, id, key) && !Names(t, id, key);
    } else {
      forall i, k ensures Lists(t, i, k) <==> Names(t, i, k) { assert Lists(s, i, k) <==> Names(s, i, k); }
    }
  }

  // ---- lock fencing ----

  /** The operation shows this owner's lock ID. */
  predicate Presents(op: Op, lock: LockId) {
    (op.Release? || op.DeleteParent? || op.FailChildren?) && op.expected.lockId == lock
  }

  /** The operation at `i` ends the ownership of `lock`. */
  ghost predicate Decides(run: Run, i: nat, lock: LockId)
    requires run.Valid() && i < |run.ops|
  {
    Held(run.states[i].store, lock) && !Held(run.states[i + 1].store, lock)
  }

  /**
   How one operation may move a record's owner: keep it with its children, issue a new one, or end it by
   presenting it.
   */
  predicate OwnerMove(s: Store, t: Store, op: Op, id: Identity, newLock: LockId) {
    if id in s.parents then
      var p := s.parents[id];
      (id in t.parents && t.parents[id].lockId == p.lockId
       && (p.lockId != NO_LOCK ==> t.parents[id].children == p.children))
      || (p.lockId == NO_LOCK && id in t.parents && t.parents[id].lockId == newLock)
      || ((id in t.parents ==> t.parents[id].lockId == NO_LOCK) && Presents(op, p.lockId))
    else
      id in t.parents ==> t.parents[id].lockId == newLock
  }

  lemma LockOpMoves(w: World, op: Op, id: Identity)
    requires Inv(w) && (op.Acquire? || op.Release? || op.FailChildren? || op.DeleteParent?)
    ensures OwnerMove(w.store, Step(w, op).store, op, id, w.next)
  {
    if op.Release? {
      ReleaseEffect(w.store, op.id, op.expected, op.status);
    } else if op.FailChildren? {
      FailChildrenEffect(w.store, op.id, op.expected);
    }
  }

  lemma ReferenceOpMoves(w: World, op: Op, id: Identity)
    requires Inv(w) && (op.AddReference? || op.RemoveReference? || op.OwnDeletion?)
    ensures OwnerMove(w.store, Step(w, op).store, op, id, w.next)
  {
  }

  lemma OwnerMoves(w: World, op: Op, id: Identity)
    requires Inv(w)
    ensures OwnerMove(w.store, Step(w, op).store, op, id, w.next)
  {
    if op.Acquire? || op.Release? || op.FailChildren? || op.DeleteParent? {
      LockOpMoves(w, op, id);
    } else if op.AddReference? || op.RemoveReference? || op.OwnDeletion? {
      ReferenceOpMoves(w, op, id);
    } else {
      assert Step(w, op).store.parents == w.store.parents;
    }
  }

  /** A held lock survives every operation that does not present it. */
  lemma OnlyOwnerDecides(w: World, op: Op, lock: LockId)
    requires Inv(w) && Held(w.store, lock) && !Presents(op, lock)
    ensures Held(Step(w, op).store, lock)
  {
    var id :| HoldsLock(w.store, id, lock);
    OwnerMoves(w, op, id);
    assert HoldsLock(Step(w, op).store, id, lock);
  }

  /** Lock IDs issued earlier never come back. */
  lemma NotReissued(w: World, op: Op, lock: LockId)
    requires Inv(w) && lock < w.next && !Held(w.store, lock)
    ensures lock < Step(w, op).next && !Held(Step(w, op).store, lock)
  {
    forall id ensures !HoldsLock(Step(w, op).store, id, lock) {
      assert !HoldsLock(w.store, id, lock);
      OwnerMoves(w, op, id);
    }
  }

  lemma HeldIsIssued(w: World, lock: LockId)
    requires Inv(w) && Held(w.store, lock)
    ensures lock < w.next
  {
    var id :| HoldsLock(w.store, id, lock);
  }

  lemma {:induction false} NeverHeldAgain(run: Run, i: nat, j: nat, lock: LockId)
    requires run.Valid() && Inv(run.states[0]) && i <= j < |run.states|
    requires lock < run.states[i].next && !Held(run.states[i].store, lock)
    ensures lock < run.states[j].next && !Held(run.states[j].store, lock)
    decreases j
  {
    if i < j {
      NeverHeldAgain(run, i, j - 1, lock);
      RunKeepsInv(run, j - 1);
      assert run.Linked(j - 1);
      NotReissued(run.states[j - 1], run.ops[j - 1], lock);
    }
  }

  lemma GoneForGood(run: Run, i: nat, j: nat, lock: LockId)
    requires run.Valid() && Inv(run.states[0]) && i < j < |run.states| && Decides(run, i, lock)
    ensures !Held(run.states[j].store, lock)
  {
    RunKeepsInv(run, i);
    HeldIsIssued(run.states[i], lock);
    assert run.Linked(i);
    NeverHeldAgain(run, i + 1, j, lock);
  }

  /** In every run each issued lock is decided at most once, and only by a step presenting its ID. */
  lemma DecidedOnceByItsOwner(run: Run, i: nat, lock: LockId)
    requires run.Valid() && Inv(run.states[0]) && i < |run.ops| && Decides(run, i, lock)
    ensures Presents(run.ops[i], lock)
    ensures forall j :: 0 <= j < |run.ops| && j != i ==> !Decides(run, j, lock)
  {
    RunKeepsInv(run, i);
    assert run.Linked(i);
    if !Presents(run.ops[i], lock) {
      OnlyOwnerDecides(run.states[i], run.ops[i], lock);
    }
    forall j | 0 <= j < |run.ops| && j != i ensures !Decides(run, j, lock) {
      if j > i {
        GoneForGood(run, i, j, lock);
      } else if Decides(run, j, lock) {
        GoneForGood(run, j, i, lock);
      }
    }
  }

  lemma UnheldPresentationChangesNothing(w: World, op: Op, lock: LockId)
    requires Inv(w) && Presents(op, lock) && lock != NO_LOCK && !Held(w.store, lock)
    ensures Step(w, op).store == w.store
  {
    assert !HoldsLock(w.store, op.id, lock);
  }

  /** Once decided, nothing presented under that lock changes any record, whatever it asks for. */
  lemma StaleOwnerChangesNothing(run: Run, i: nat, j: nat, lock: LockId, op: Op)
    requires run.Valid() && Inv(run.states[0]) && i < j < |run.states| && Decides(run, i, lock)
    requires Presents(op, lock)
    ensures Step(run.states[j], op).store == run.states[j].store
  {
    RunKeepsInv(run, j);
    GoneForGood(run, i, j, lock);
    assert lock != NO_LOCK by { var id :| HoldsLock(run.states[i].store, id, lock); }
    UnheldPresentationChangesNothing(run.states[j], op, lock);
  }

  /** Repeating a completed release with the same outcome succeeds and changes nothing. */
  lemma ReleaseIsRepeatable(s: Store, id: Identity, expected: Parent, status: ParentStatus)
    requires SetStatus(s, id, expected, status).Done?
    ensures var t := SetStatus(s, id, expected, status).store;
            SetStatus(t, id, expected, status) == Done(t, ())
  {
  }

  // ---- ownership freezes the child set ----

  /** A lock issued before a step and held after it was held by the same record, with the same children. */
  lemma OwnedBackwards(run: Run, j: nat, id: Identity, lock: LockId)
    requires run.Valid() && j < |run.ops| && Inv(run.states[j]) && lock < run.states[j].next
    requires HoldsLock(run.states[j + 1].store, id, lock)
    ensures HoldsLock(run.states[j].store, id, lock)
    ensures run.states[j + 1].store.parents[id].children == run.states[j].store.parents[id].children
  {
    assert run.Linked(j);
    OwnerMoves(run.states[j], run.ops[j], id);
  }

  /** While one owner holds a parent, its child set does not change. */
  lemma {:induction false} OwnedRunFreezesChildren(run: Run, i: nat, j: nat, id: Identity, lock: LockId)
    requires run.Valid() && Inv(run.states[0]) && i <= j < |run.states|
    requires lock < run.states[i].next && HoldsLock(run.states[j].store, id, lock)
    ensures HoldsLock(run.states[i].store, id, lock)
    ensures run.states[j].store.parents[id].children == run.states[i].store.parents[id].children
    decreases j
  {
    if i < j {
      RunKeepsInv(run, j - 1);
      NextGrows(run, i, j - 1);
      OwnedBackwards(run, j - 1, id, lock);
      OwnedRunFreezesChildren(run, i, j - 1, id, lock);
    }
  }

  lemma {:induction false} NextGrows(run: Run, i: nat, j: nat)
    requires run.Valid() && i <= j < |run.states|
    ensures run.states[i].next <= run.states[j].next
    decreases j
  {
    if i < j {
      NextGrows(run, i, j - 1);
      assert run.Linked(j - 1);
    }
  }
}
