/**
 What the caches are for: whatever was committed or read last can be rebuilt. A reference of a model that is
 neither evicted nor fenced comes back with its path and its status.
 */
module HfRebuild {
  import opened HfTypes
  import opened HfRepository
  import opened HfRuns
  import opened HfRepair
  import opened HfCache
  import opened HfRecovery
  import opened HfAgent
  import opened HfConfigMap
  import opened Maps

  /** The UID that owns the cached model, if it is known. */
  function OwnerOf(c: Cache, key: ModelKey): Uid {
    if key in c.models then c.models[key].uid else ""
  }

  /** The model was not evicted, and its owner's UID not invalidated. */
  predicate IsKept(c: Cache, key: ModelKey) {
    key !in c.evicted && !(key in c.invalidated && (OwnerOf(c, key) == "" || OwnerOf(c, key) in c.invalidated[key]))
  }

  /** The cache holds exactly this shared record. */
  predicate Holds(c: Cache, key: ModelKey, child: Child) {
    key in c.models && c.models[key].entry == Some(child) && c.models[key].status == child.status
  }

  /** A shared record that a cache can take: named, not Deleted, and attached or with an intent or a receipt. */
  predicate IsShared(child: Child) {
    child.name != "" && child.status != ModelDeleted && !IsOrdinary(child)
  }

  lemma VisitedIsHeld(c: Cache, before: map<ModelKey, Child>, after: map<ModelKey, Child>, key: ModelKey,
                      modelId: ModelKey, uid: Uid)
    requires key in after && IsShared(after[key])
    ensures var c' := CacheModel(c, before, after, key, modelId, uid); IsKept(c', key) ==> Holds(c', key, after[key])
  {
  }

  lemma OthersVisited(c: Cache, before: map<ModelKey, Child>, after: map<ModelKey, Child>, k: ModelKey,
                      modelId: ModelKey, uid: Uid, key: ModelKey)
    requires k in after && k != key
    ensures var c' := CacheModel(c, before, after, k, modelId, uid);
            && (IsKept(c', key) <==> IsKept(c, key)) && Get(c'.models, key) == Get(c.models, key)
  {
  }

  lemma {:induction false} CommittedIsHeld(c: Cache, before: map<ModelKey, Child>, after: map<ModelKey, Child>,
                                           order: seq<ModelKey>, modelId: ModelKey, uid: Uid, key: ModelKey)
    requires (forall k :: k in order ==> k in after) && key in order && IsShared(after[key])
    ensures var c' := CacheModels(c, before, after, order, modelId, uid);
            IsKept(c', key) ==> Holds(c', key, after[key])
  {
    var front, k := order[..|order| - 1], order[|order| - 1];
    var mid := CacheModels(c, before, after, front, modelId, uid);
    if k == key {
      VisitedIsHeld(mid, before, after, key, modelId, uid);
    } else {
      assert key in front;
      CommittedIsHeld(c, before, after, front, modelId, uid, key);
      OthersVisited(mid, before, after, k, modelId, uid, key);
    }
  }

  lemma {:induction false} ParentIsHeld(c: Cache, parents: map<Identity, Parent>, order: seq<Identity>, id: Identity)
    requires (forall i :: i in order ==> i in parents) && id in order && RecoveryOk(id, parents[id])
    ensures var c' := CacheParents(c, parents, order);
            && id in c'.parents && c'.models == c.models && c'.evicted == c.evicted && c'.invalidated == c.invalidated
            && c'.parents[id] == WithoutChildren(parents[id], c.evicted * parents[id].children.Keys)
  {
    var front, i := order[..|order| - 1], order[|order| - 1];
    ParentsTouchNoModel(c, parents, front);
    if i != id {
      assert id in front;
      ParentIsHeld(c, parents, front, id);
    }
  }

  lemma {:induction false} ParentsTouchNoModel(c: Cache, parents: map<Identity, Parent>, order: seq<Identity>)
    requires forall i :: i in order ==> i in parents
    ensures var c' := CacheParents(c, parents, order);
            c'.models == c.models && c'.evicted == c.evicted && c'.invalidated == c.invalidated
  {
    if order != [] { ParentsTouchNoModel(c, parents, order[..|order| - 1]); }
  }

  /** After a commit, the caches hold a committed reference on both sides if and only if its model is kept. */
  lemma CommittedComesBackIff(c: Cache, before: Store, after: Store, modelId: ModelKey, uid: Uid, v: Visit,
                              id: Identity,
                              key: ModelKey)
    requires Clean(c) && Covers(v, before, after) && SavedWithin(after)
    requires Names(after, id, key) && Lists(after, id, key) && IsShared(after.children[key])
    requires RecoveryOk(id, after.parents[id])
    ensures var c' := CacheCommitted(c, before, after, modelId, uid, v);
            && (ComesBackTo(c', id, key) <==> IsKept(c', key))
            && (IsKept(c', key) ==>
                  && c'.models[key].entry == Some(after.children[key])
                  && c'.parents[id].children[key] == after.parents[id].children[key]
                  && Get(c'.parents[id].saved, key) == Get(after.parents[id].saved, key))
  {
    var dropped := c.(parents := c.parents - (before.parents.Keys - after.parents.Keys));
    var evicted := EvictAll(dropped, v.gone);
    var mid := CacheModels(evicted, before.children, after.children, v.models, modelId, uid);
    CacheStepKeepsClean(c, Committed(before, after, modelId, uid, v));
    CommittedIsHeld(evicted, before.children, after.children, v.models, modelId, uid, key);
    ParentIsHeld(mid, after.parents, v.parents, id);
  }

  /** The reference is there again on both sides, under its path, and the model will show its status. */
  predicate IsBack(s: Store, t: Store, id: Identity, key: ModelKey) {
    && Lists(s, id, key) && Names(s, id, key) && Lists(t, id, key) && Names(t, id, key)
    && t.parents[id].children[key] == s.parents[id].children[key]
    && t.children[key] == s.children[key].(status := ModelFailed) && Effective(t, key) == Effective(s, key)
  }

  /**
   A ConfigMap lost right after a commit or a read: every reference it held, of a kept model, comes back under
   its path, and shows its status once the parent is validated.
   */
  lemma RebuiltAsCommitted(c: Cache, before: Store, after: Store, modelId: ModelKey, uid: Uid, v: Visit, id: Identity,
                           key: ModelKey, includeOrdinary: bool)
    requires Clean(c) && Covers(v, before, after) && SavedWithin(after)
    requires Names(after, id, key) && Lists(after, id, key) && IsShared(after.children[key])
    requires RecoveryOk(id, after.parents[id])
    ensures var c' := CacheCommitted(c, before, after, modelId, uid, v);
            var s := RebuiltStore(c', includeOrdinary);
            (Names(s, id, key) <==> IsKept(c', key)) && (IsKept(c', key) ==> IsBack(after, s, id, key))
  {
    var c' := CacheCommitted(c, before, after, modelId, uid, v);
    CacheStepKeepsClean(c, Committed(before, after, modelId, uid, v));
    CommittedComesBackIff(c, before, after, modelId, uid, v, id, key);
    ReattachesExactly(c', includeOrdinary, id, key);
  }

  predicate IsReference(s: Store, id: Identity, key: ModelKey) {
    Names(s, id, key) && IsShared(s.children[key]) && id in s.parents && RecoveryOk(id, s.parents[id])
  }

  /** The same at any point of an agent's run that follows a read of the ConfigMap. */
  lemma LostAfterRead(run: AgentRun, n: nat, s: Store, id: Identity, key: ModelKey, includeOrdinary: bool)
    requires run.Valid() && Fine(run.states[0]) && n < |run.events| && run.DutifulUntil(n)
    requires run.events[n].Reads? && run.states[n].store == Some(s) && IsReference(s, id, key)
    ensures var c := run.states[n + 1].cache;
            && (Names(RebuiltStore(c, includeOrdinary), id, key) <==> IsKept(c, key))
            && (IsKept(c, key) ==> IsBack(s, RebuiltStore(c, includeOrdinary), id, key))
  {
    AgentRunKeepsFine(run, n);
    assert run.Linked(n);
    assert Names(s, id, key) && Lists(s, id, key);
    RebuiltAsCommitted(run.states[n].cache, s, s, "", "", run.events[n].visit, id, key, includeOrdinary);
  }

  // ---- who is heard ----

  /**
   A mutation is blocked if and only if its UID was invalidated, or it carries none and some UID of the model
   was, or the cached model belongs to another known UID.
   */
  lemma BlockedIff(c: Cache, s: Store, op: Op, uid: Uid, current: bool)
    requires CarriesUid(op) && !op.Claim?
    ensures var u, owner := CarriedUid(op, uid), OwnerOf(c, op.key);
            Flagged(c, s, op, uid, current).blocked <==>
              || (op.key in c.invalidated && (u == "" || u in c.invalidated[op.key]))
              || (owner != "" && u != "" && owner != u)
  {
  }

  /** Without the lister's word, a UID other than the known owner's changes no record. */
  lemma ForeignUidWritesNothing(c: Cache, s: Store, op: Op, uid: Uid, newLock: LockId)
    requires CarriesUid(op) && OwnerOf(c, op.key) != "" && CarriedUid(op, uid) != ""
    requires OwnerOf(c, op.key) != CarriedUid(op, uid)
    ensures var issued := Flagged(c, s, op, uid, false);
            Fails(s, issued, newLock) || ApplyOp(s, issued, newLock) == s
  {
    if !op.Claim? { BlockedIff(c, s, op, uid, false); }
  }

  /** A UID that is neither invalidated nor foreign writes its model's status wherever the records allow it. */
  lemma OwnerIsHeard(c: Cache, s: Store, key: ModelKey, name: string, status: ModelStatus, uid: Uid, current: bool,
                     newLock: LockId)
    requires !(key in c.invalidated && (uid == "" || uid in c.invalidated[key]))
    requires OwnerOf(c, key) == "" || uid == "" || OwnerOf(c, key) == uid
    requires MayWrite(s, key, if key in c.models then c.models[key].entry else None) && status != ModelDeleted
    requires status == ModelReady ==> ParentReady(s, key)
    ensures var issued := Flagged(c, s, StatusWrite(key, name, status, true, true), uid, current);
            var t := ApplyOp(s, issued, newLock);
            !Fails(s, issued, newLock) && key in t.children && t.children[key].status == status
  {
    BlockedIff(c, s, StatusWrite(key, name, status, true, true), uid, current);
    WritesIff(s, key, name, status, if key in c.models then c.models[key].entry else None);
  }

  // ---- ordinary models and handed-over receipts ----

  /** What the cache holds of an ordinary model comes back by explicit reconciliation, and only then. */
  lemma OrdinaryComesBack(c: Cache, key: ModelKey)
    requires Clean(c) && IsTrusted(c, key) && c.models[key].entry.None? && c.models[key].name != ""
    ensures var e := c.models[key];
            Get(RebuiltStore(c, true).children, key) ==
              Some(Child(e.name, e.status, e.metadata, None, None, None, None))
    ensures key !in RebuiltStore(c, false).children
  {
    PlainRecordsComeBackIff(c, true, key);
    PlainRecordsComeBackIff(c, false, key);
  }

  /** A write of an ordinary model under an unblocked UID is cached under that UID. */
  lemma OrdinaryIsCached(c: Cache, key: ModelKey, name: string, uid: Uid, status: Option<ModelStatus>,
                         metadata: Option<string>)
    requires Clean(c) && name != "" && status != Some(ModelDeleted)
    requires !(key in c.invalidated && (uid == "" || uid in c.invalidated[key]))
    requires OwnerOf(c, key) == "" || uid == "" || OwnerOf(c, key) == uid
    requires key in c.models ==> c.models[key].entry.None? && c.models[key].status != ModelDeleted
    ensures var c' := CacheOrdinary(c, key, name, uid, status, metadata);
            var was := if key in c.models then c.models[key] else CacheEntry(name, "", ModelUpdating, None, None);
            && Clean(c') && IsTrusted(c', key)
            && c'.models[key] == CacheEntry(was.name, uid, if status.Some? then status.value else was.status,
                                            if metadata.Some? then metadata else was.metadata, None)
  {
    CacheStepKeepsClean(c, Ordinary(key, name, uid, status, metadata));
  }

  /** A receipt handed over makes its UID the owner, and the owner before is fenced for good. */
  lemma AdoptionHandsOver(c: Cache, key: ModelKey, child: Child, uid: Uid)
    requires uid != "" && !(key in c.invalidated && uid in c.invalidated[key])
    ensures var c' := Adopt(c, key, child, uid);
            && OwnerOf(c', key) == uid && Holds(c', key, child) && IsKept(c', key)
            && (OwnerOf(c, key) != "" && OwnerOf(c, key) != uid ==>
                  key in c'.invalidated && OwnerOf(c, key) in c'.invalidated[key])
            && forall k :: k != key ==> Get(c'.models, k) == Get(c.models, k)
  {
  }
}
