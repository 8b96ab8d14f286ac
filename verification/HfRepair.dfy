/**
 Child statuses across repairs (hf_artifact_repository_repair.go and the Ready branch of setStatus).

 A repair replaces the statuses of attached children with Failed and saves the old ones in the
 parent record, where they survive failed and interrupted repairs. `Effective` is the status a child
 will show once the parent is Ready; it is what every other operation leaves alone.
 */
module HfRepair {
  import opened HfTypes
  import opened HfRepository
  import opened HfRuns

  /** The status a parent's repair saved for this child. */
  function SavedStatus(s: Store, key: ModelKey): Option<ModelStatus>
    requires key in s.children
  {
    var parentKey := s.children[key].parentKey;
    if parentKey.Some? && parentKey.value in s.parents && key in s.parents[parentKey.value].saved
    then Some(s.parents[parentKey.value].saved[key])
    else None
  }

  function Effective(s: Store, key: ModelKey): (st: ModelStatus)
    requires key in s.children
  {
    if s.children[key].status == ModelFailed && SavedStatus(s, key).Some?
    then SavedStatus(s, key).value
    else s.children[key].status
  }

  /** An owner that publishes Ready knows the current child set. */
  predicate KnowsChildren(w: World, op: Op) {
    op.Release? && op.status == Ready && op.id in w.store.parents && OwnsLock(w.store.parents[op.id], op.expected) ==>
      op.expected.children == w.store.parents[op.id].children
  }

  lemma ReleaseKeepsEffective(w: World, op: Op, key: ModelKey)
    requires Inv(w) && op.Release? && KnowsChildren(w, op)
    requires key in w.store.children
    ensures key in Step(w, op).store.children && Effective(Step(w, op).store, key) == Effective(w.store, key)
  {
    var s, t := w.store, Step(w, op).store;
    if t != s && op.status == Ready {
      var stored := s.parents[op.id];
      var child := s.children[key];
      if child.parentKey == Some(op.id) && key in stored.saved && child.status == ModelFailed {
        assert Names(s, op.id, key) && Lists(s, op.id, key);
        assert IsRepairChild(s, key, op.id, stored, op.expected);
        assert key in StatusesToRestore(s, op.id, stored, op.expected);
      }
    }
  }

  lemma FailChildrenKeepsEffective(w: World, op: Op, key: ModelKey)
    requires Inv(w) && op.FailChildren?
    requires key in w.store.children
    ensures key in Step(w, op).store.children && Effective(Step(w, op).store, key) == Effective(w.store, key)
  {
    var s, t := w.store, Step(w, op).store;
    if t != s {
      FailChildrenEffect(s, op.id, op.expected);
      var stored := s.parents[op.id];
      if FailsForRepair(s, key, op.id, stored, op.expected) {
        assert t.children[key] == s.children[key].(status := ModelFailed);
      } else {
        assert t.children[key] == s.children[key];
      }
    }
  }

  /** Same child record, same saved statuses at its parent: same effective status. */
  lemma SameEffective(s: Store, t: Store, key: ModelKey)
    requires key in s.children && key in t.children
    requires t.children[key].status == s.children[key].status && t.children[key].parentKey == s.children[key].parentKey
    requires s.children[key].parentKey.Some? ==>
               var id := s.children[key].parentKey.value;
               id in s.parents && id in t.parents &&
               (if key in s.parents[id].saved then Some(s.parents[id].saved[key]) else None)
               == (if key in t.parents[id].saved then Some(t.parents[id].saved[key]) else None)
    ensures Effective(t, key) == Effective(s, key)
  {
  }

  lemma AttachKeepsEffective(w: World, op: Op, key: ModelKey)
    requires Inv(w) && op.AddReference?
    requires key in w.store.children
    ensures key in Step(w, op).store.children && Effective(Step(w, op).store, key) == Effective(w.store, key)
  {
  }

  lemma OtherParentOpKeepsEffective(w: World, op: Op, key: ModelKey)
    requires Inv(w) && Legal(w, op) && (op.Acquire? || op.RemoveReference? || op.DeleteParent? || op.OwnDeletion?)
    requires key in w.store.children
    requires op.RemoveReference? ==> op.key != key
    ensures key in Step(w, op).store.children && Effective(Step(w, op).store, key) == Effective(w.store, key)
  {
    var s, t := w.store, Step(w, op).store;
    if s.children[key].parentKey.Some? {
      assert Names(s, s.children[key].parentKey.value, key);
      assert Lists(s, s.children[key].parentKey.value, key);
    }
    if op.Acquire? {
      AcquireEffect(s, op.id, op.expected, op.forRepair, w.next);
    }
    SameEffective(s, t, key);
  }

  lemma ChildWriteKeepsEffective(w: World, op: Op, key: ModelKey)
    requires op.Remember? || op.BeginDownloadDeletion? || op.Claim? || op.FinishDeletion? || op.MetadataWrite?
             || op.ProgressWrite? || op.StatusWrite? || op.Remove?
    requires Inv(w) && Legal(w, op) && key in w.store.children
    requires (op.StatusWrite? || op.Remove?) ==> op.key != key
    ensures key in Step(w, op).store.children && Effective(Step(w, op).store, key) == Effective(w.store, key)
  {
    assert Step(w, op).store.parents == w.store.parents;
  }

  /**
   Apart from its own detachment, removal and status writes, no operation of any agent changes the
   status a child will show: repairs only move it between the child and the parent's saved statuses.
   */
  lemma StepKeepsEffective(w: World, op: Op, key: ModelKey)
    requires Inv(w) && Legal(w, op) && KnowsChildren(w, op)
    requires key in w.store.children
    requires (op.RemoveReference? || op.StatusWrite? || op.Remove?) ==> op.key != key
    ensures key in Step(w, op).store.children && Effective(Step(w, op).store, key) == Effective(w.store, key)
  {
    if op.Release? {
      ReleaseKeepsEffective(w, op, key);
    } else if op.FailChildren? {
      FailChildrenKeepsEffective(w, op, key);
    } else if op.AddReference? {
      AttachKeepsEffective(w, op, key);
    } else if op.Acquire? || op.RemoveReference? || op.DeleteParent? || op.OwnDeletion? {
      OtherParentOpKeepsEffective(w, op, key);
    } else {
      ChildWriteKeepsEffective(w, op, key);
    }
  }

  /** The operation commits an ordinary status write to this child. */
  predicate WritesStatus(w: World, op: Op, key: ModelKey) {
    op.StatusWrite? && op.key == key && !op.blocked
      && WriteStatus(w.store, key, op.name, op.model, false, op.conflict).Done?
  }

  /** A write decides the effective status; only Failed over a saved status yields to the saved one. */
  function AfterWrite(s: Store, key: ModelKey, written: ModelStatus): ModelStatus
    requires key in s.children
  {
    if written == ModelFailed && SavedStatus(s, key).Some? then SavedStatus(s, key).value else written
  }

  lemma WriteDecidesEffective(w: World, op: Op, key: ModelKey)
    requires Legal(w, op) && WritesStatus(w, op, key) && key in w.store.children
    ensures key in Step(w, op).store.children
    ensures Effective(Step(w, op).store, key) == AfterWrite(w.store, key, op.model)
  {
  }

  /** The run attaches `key` to `id` from its first to its `n`-th state. */
  ghost predicate AttachedThroughout(run: Run, id: Identity, key: ModelKey, n: nat)
    requires run.Valid() && n < |run.states|
  {
    forall i :: 0 <= i <= n ==> Names(run.states[i].store, id, key)
  }

  /** Whoever publishes Ready presents a record that it read while its lock was held. */
  ghost predicate OwnersPresentTheirRecord(run: Run)
    requires run.Valid()
  {
    forall i :: 0 <= i < |run.ops| && run.ops[i].Release? && run.ops[i].status == Ready ==> PresentsOwnRecord(run, i)
  }

  ghost predicate PresentsOwnRecord(run: Run, i: nat)
    requires run.Valid() && i < |run.ops| && run.ops[i].Release?
  {
    var op := run.ops[i];
    exists k :: 0 <= k <= i && HoldsLock(run.states[k].store, op.id, op.expected.lockId)
      && op.expected.children == run.states[k].store.parents[op.id].children
  }

  /** Ownership freezes the child set, so the owner's record is still right about the children. */
  lemma OwnRecordKnowsChildren(run: Run, i: nat)
    requires run.Valid() && Inv(run.states[0]) && i < |run.ops|
    requires OwnersPresentTheirRecord(run)
    ensures KnowsChildren(run.states[i], run.ops[i])
  {
    var op, w := run.ops[i], run.states[i];
    if op.Release? && op.status == Ready && op.id in w.store.parents && OwnsLock(w.store.parents[op.id], op.expected) {
      assert PresentsOwnRecord(run, i);
      var k :| 0 <= k <= i && HoldsLock(run.states[k].store, op.id, op.expected.lockId)
        && op.expected.children == run.states[k].store.parents[op.id].children;
      RunKeepsInv(run, k);
      OwnedRunFreezesChildren(run, k, i, op.id, op.expected.lockId);
    }
  }

  /** What the child should show: its first effective status, overwritten by the committed writes. */
  ghost function Intended(run: Run, key: ModelKey, n: nat): ModelStatus
    requires run.Valid() && n < |run.states|
    requires forall i :: 0 <= i <= n ==> key in run.states[i].store.children
  {
    if n == 0 then Effective(run.states[0].store, key)
    else if WritesStatus(run.states[n - 1], run.ops[n - 1], key)
    then AfterWrite(run.states[n - 1].store, key, run.ops[n - 1].model)
    else Intended(run, key, n - 1)
  }

  lemma DetachmentIsVisible(w: World, op: Op, id: Identity, key: ModelKey)
    requires Names(w.store, id, key) && Names(Step(w, op).store, id, key) && (op.RemoveReference? || op.Remove?)
    requires op.key == key
    ensures Step(w, op).store == w.store
  {
  }

  lemma NextKeepsEffective(run: Run, i: nat, id: Identity, key: ModelKey)
    requires run.Valid() && i < |run.ops| && Inv(run.states[i]) && KnowsChildren(run.states[i], run.ops[i])
    requires Names(run.states[i].store, id, key) && Names(run.states[i + 1].store, id, key)
    ensures Effective(run.states[i + 1].store, key) ==
            if WritesStatus(run.states[i], run.ops[i], key) then AfterWrite(run.states[i].store, key, run.ops[i].model)
            else Effective(run.states[i].store, key)
  {
    var w, op, w' := run.states[i], run.ops[i], run.states[i + 1];
    assert run.Linked(i);
    if WritesStatus(w, op, key) {
      WriteDecidesEffective(w, op, key);
    } else if (op.RemoveReference? || op.Remove?) && op.key == key {
      DetachmentIsVisible(w, op, id, key);
    } else if op.StatusWrite? && op.key == key {
      assert w'.store == w.store;
    } else {
      StepKeepsEffective(w, op, key);
    }
  }

  /** Through any number of repairs, failed, interrupted or completed, by any owners. */
  lemma {:induction false} EffectiveIsIntended(run: Run, id: Identity, key: ModelKey, n: nat)
    requires run.Valid() && Inv(run.states[0]) && n < |run.states|
    requires AttachedThroughout(run, id, key, n) && OwnersPresentTheirRecord(run)
    ensures forall i :: 0 <= i <= n ==> key in run.states[i].store.children
    ensures Effective(run.states[n].store, key) == Intended(run, key, n)
  {
    forall i | 0 <= i <= n ensures key in run.states[i].store.children { assert Names(run.states[i].store, id, key); }
    if n > 0 {
      EffectiveIsIntended(run, id, key, n - 1);
      RunKeepsInv(run, n - 1);
      OwnRecordKnowsChildren(run, n - 1);
      assert Names(run.states[n - 1].store, id, key) && Names(run.states[n].store, id, key);
      NextKeepsEffective(run, n - 1, id, key);
    }
  }

  /**
   Whenever the parent is Ready again, an attached child shows what ordinary writes last gave it,
   however many repair cycles failed or were interrupted in between.
   */
  lemma ReadyShowsIntended(run: Run, id: Identity, key: ModelKey, n: nat)
    requires run.Valid() && Inv(run.states[0]) && n < |run.states|
    requires AttachedThroughout(run, id, key, n) && OwnersPresentTheirRecord(run)
    requires id in run.states[n].store.parents && run.states[n].store.parents[id].status == Ready
    ensures forall i :: 0 <= i <= n ==> key in run.states[i].store.children
    ensures run.states[n].store.children[key].status == Intended(run, key, n)
  {
    EffectiveIsIntended(run, id, key, n);
    RunKeepsInv(run, n);
    assert Names(run.states[n].store, id, key);
    assert SavedShape(run.states[n].store.parents[id]);
  }

  /** Without ordinary writes, every attached child gets back the status it had before the first cycle. */
  lemma RepairRestoresStatus(run: Run, id: Identity, key: ModelKey, n: nat)
    requires run.Valid() && Inv(run.states[0]) && n < |run.states|
    requires AttachedThroughout(run, id, key, n) && OwnersPresentTheirRecord(run)
    requires id in run.states[n].store.parents && run.states[n].store.parents[id].status == Ready
    requires key in run.states[0].store.children && SavedStatus(run.states[0].store, key).None?
    requires forall i :: 0 <= i < n ==> !(run.ops[i].StatusWrite? && run.ops[i].key == key)
    ensures key in run.states[n].store.children
    ensures run.states[n].store.children[key].status == run.states[0].store.children[key].status
  {
    ReadyShowsIntended(run, id, key, n);
    UnwrittenIntent(run, key, n);
  }

  lemma {:induction false} UnwrittenIntent(run: Run, key: ModelKey, n: nat)
    requires run.Valid() && n < |run.states|
    requires forall i :: 0 <= i <= n ==> key in run.states[i].store.children
    requires forall i :: 0 <= i < n ==> !(run.ops[i].StatusWrite? && run.ops[i].key == key)
    ensures Intended(run, key, n) == Effective(run.states[0].store, key)
  {
    if n > 0 { UnwrittenIntent(run, key, n - 1); }
  }

  /** A status other than Failed that someone wrote after the last save is never rolled back by a release. */
  lemma NewerStatusIsNotRolledBack(w: World, op: Op, key: ModelKey)
    requires Inv(w) && op.Release? && key in w.store.children && w.store.children[key].status != ModelFailed
    ensures key in Step(w, op).store.children && Step(w, op).store.children[key] == w.store.children[key]
  {
  }
}
