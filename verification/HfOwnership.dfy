/**
 What a committed intent, receipt or reference is worth: it leads on to the next step of its own task, and in
 every run only that task, or the model's removal, ends it.
 */
module HfOwnership {
  import opened HfTypes
  import opened HfRepository
  import opened HfRuns
  import opened HfConfigMap
  import opened Maps

  // ---- a task's own steps lead on ----

  /** After its intent is recorded, a task attaches its model to the Ready parent exactly if no other parent has it. */
  lemma RememberedAttachesIff(s: Store, next: LockId, id: Identity, p: Parent, key: ModelKey, uid: Uid, path: Path)
    requires Inv(World(s, next)) && key != "" && path != "" && CanonicalPath(id, p.localPath)
    requires id in s.parents && s.parents[id] == p && p.status == Ready
    requires RememberDownload(s, id, p.localPath, key, uid, path, false).Done?
    ensures var t := RememberDownload(s, id, p.localPath, key, uid, path, false).store;
            AddModelReference(t, id, p, key, uid, path, false).Done? <==>
              (forall other :: Names(s, other, key) ==> other == id && p.children[key] == path)
  {
    var t := RememberDownload(s, id, p.localPath, key, uid, path, false).store;
    AttachesIff(t, id, p, key, uid, path);
    forall other
      ensures (Names(t, other, key) <==> Names(s, other, key)) && (Names(s, other, key) <==> Lists(s, other, key)) {
    }
    assert OneRole(s.children[key]);
    if s.children[key].parentKey.Some? {
      assert Names(s, s.children[key].parentKey.value, key) && t == s;
    } else {
      assert !Names(s, id, key) && !Lists(s, id, key);
      assert t.parents == s.parents
             && t.children[key].pendingDownload == Some(PendingDownload(id, p.localPath, path, uid));
    }
  }

  /** An attached model, or one with an intent, can be detached or given up for deletion, and that deletion resumed. */
  lemma DetachedResumes(s: Store, next: LockId, id: Identity, p: Parent, key: ModelKey, uid: Uid, path: Path,
                        absent: bool)
    requires Inv(World(s, next)) && MayRemove(s, id, p.localPath, key, path) && s.parents[id] == p
    ensures var o := RemoveModelReference(s, id, p, key, uid, path, true, false, next);
            && o.Done? && o.result.removed && key in o.store.children && o.store.children[key].pendingDeletion.Some?
            && var receipt := o.store.children[key].pendingDeletion.value;
               DeletionParent(o.store, key, receipt, absent, false, next + 1).Done?
  {
    DetachesIff(s, next, id, p, key, uid, path, true);
    var t := RemoveModelReference(s, id, p, key, uid, path, true, false, next).store;
    StepKeepsInv(World(s, next), RemoveReference(id, p, key, uid, path, true, false));
    ResumesIff(t, next + 1, key, "", t.children[key].pendingDeletion.value, absent);
  }

  // ---- nobody else ends them ----

  function IntentOf(s: Store, key: ModelKey): Option<PendingDownload> {
    if key in s.children then s.children[key].pendingDownload else None
  }

  function ReceiptOf(s: Store, key: ModelKey): Option<PendingDeletion> {
    if key in s.children then s.children[key].pendingDeletion else None
  }

  /** The model is written Deleted as a status. */
  predicate WipesModel(op: Op, key: ModelKey) {
    op.StatusWrite? && op.key == key && op.model == ModelDeleted && !op.blocked
  }

  /** The attachment of exactly this directory, path and UID, or its conversion into a receipt. */
  predicate EndsIntent(op: Op, key: ModelKey, intent: PendingDownload) {
    || (op.AddReference? && op.id == intent.identity && op.expected.localPath == intent.parentPath && op.key == key
        && op.uid == intent.uid && op.path == intent.childPath && !op.blocked)
    || (op.BeginDownloadDeletion? && op.key == key && op.intent == intent)
    || WipesModel(op, key)
  }

  lemma IntentStays(s: Store, op: Op, newLock: LockId, key: ModelKey, intent: PendingDownload)
    requires IntentOf(s, key) == Some(intent) && !EndsIntent(op, key, intent)
    ensures IntentOf(ApplyOp(s, op, newLock), key) == Some(intent)
  {
  }

  /** Resumption, handover or completion of exactly this receipt, or the removal of the model under its UID. */
  predicate EndsReceipt(op: Op, key: ModelKey, receipt: PendingDeletion) {
    || (op.OwnDeletion? && op.key == key && op.receipt == receipt)
    || (op.Claim? && op.key == key && op.receipt == receipt)
    || (op.FinishDeletion? && op.key == key && op.receipt == receipt)
    || (op.Remove? && op.key == key && op.uid == receipt.uid)
    || WipesModel(op, key)
  }

  lemma ReceiptStays(s: Store, op: Op, newLock: LockId, key: ModelKey, receipt: PendingDeletion)
    requires ReceiptOf(s, key) == Some(receipt) && !EndsReceipt(op, key, receipt)
    ensures ReceiptOf(ApplyOp(s, op, newLock), key) == Some(receipt)
  {
  }

  predicate EndsReference(op: Op, id: Identity, key: ModelKey, path: Path) {
    (op.RemoveReference? && op.id == id && op.key == key && op.path == path && !op.blocked) || WipesModel(op, key)
  }

  predicate RefersTo(s: Store, id: Identity, key: ModelKey, path: Path) {
    Names(s, id, key) && Lists(s, id, key) && s.parents[id].children[key] == path
  }

  lemma ReferenceStays(w: World, op: Op, id: Identity, key: ModelKey, path: Path)
    requires Inv(w) && RefersTo(w.store, id, key, path) && !EndsReference(op, id, key, path)
    ensures RefersTo(Step(w, op).store, id, key, path)
  {
    if op.Release? {
      ReleaseEffect(w.store, op.id, op.expected, op.status);
    } else if op.FailChildren? {
      FailChildrenEffect(w.store, op.id, op.expected);
    } else {
      ReferenceStaysElse(w.store, op, w.next, id, key, path);
    }
  }

  lemma ReferenceStaysElse(s: Store, op: Op, newLock: LockId, id: Identity, key: ModelKey, path: Path)
    requires RefersTo(s, id, key, path) && !EndsReference(op, id, key, path) && !op.Release? && !op.FailChildren?
    requires OneRole(s.children[key])
    ensures RefersTo(ApplyOp(s, op, newLock), id, key, path)
  {
  }

  // ---- over runs ----

  /** In every run an intent that is gone was ended by its own task or with the model. */
  lemma {:induction false} IntentEndsByItsTask(run: Run, i: nat, j: nat, key: ModelKey, intent: PendingDownload)
    returns (k: nat)
    requires run.Valid() && i <= j < |run.states| && IntentOf(run.states[i].store, key) == Some(intent)
    requires IntentOf(run.states[j].store, key) != Some(intent)
    ensures i <= k < j && EndsIntent(run.ops[k], key, intent)
    decreases j
  {
    assert run.Linked(j - 1);
    if IntentOf(run.states[j - 1].store, key) == Some(intent) {
      k := j - 1;
      if !EndsIntent(run.ops[k], key, intent) {
        IntentStays(run.states[k].store, run.ops[k], run.states[k].next, key, intent);
      }
    } else {
      k := IntentEndsByItsTask(run, i, j - 1, key, intent);
    }
  }

  lemma {:induction false} ReceiptEndsByItsTask(run: Run, i: nat, j: nat, key: ModelKey, receipt: PendingDeletion)
    returns (k: nat)
    requires run.Valid() && i <= j < |run.states| && ReceiptOf(run.states[i].store, key) == Some(receipt)
    requires ReceiptOf(run.states[j].store, key) != Some(receipt)
    ensures i <= k < j && EndsReceipt(run.ops[k], key, receipt)
    decreases j
  {
    assert run.Linked(j - 1);
    if ReceiptOf(run.states[j - 1].store, key) == Some(receipt) {
      k := j - 1;
      if !EndsReceipt(run.ops[k], key, receipt) {
        ReceiptStays(run.states[k].store, run.ops[k], run.states[k].next, key, receipt);
      }
    } else {
      k := ReceiptEndsByItsTask(run, i, j - 1, key, receipt);
    }
  }

  lemma {:induction false} ReferenceEndsByItsTask(run: Run, i: nat, j: nat, id: Identity, key: ModelKey, path: Path)
    returns (k: nat)
    requires run.Valid() && i <= j < |run.states| && Inv(run.states[0])
    requires RefersTo(run.states[i].store, id, key, path) && !RefersTo(run.states[j].store, id, key, path)
    ensures i <= k < j && EndsReference(run.ops[k], id, key, path)
    decreases j
  {
    assert run.Linked(j - 1);
    RunKeepsInv(run, j - 1);
    if RefersTo(run.states[j - 1].store, id, key, path) {
      k := j - 1;
      if !EndsReference(run.ops[k], id, key, path) { ReferenceStays(run.states[k], run.ops[k], id, key, path); }
    } else {
      k := ReferenceEndsByItsTask(run, i, j - 1, id, key, path);
    }
  }
}
