/**
 The in-process caches behind the ConfigMap (hf_artifact_recovery.go, configmap_reconciler.go,
 configmap_legacy.go): what committed mutations leave in them, eviction, and UID invalidation.
 */
module HfCache {
  import opened HfTypes
  import opened HfRepository
  import opened HfRuns
  import opened Maps

  /** `entry` is the committed shared record; ordinary models have only the typed fields. */
  datatype CacheEntry = CacheEntry(name: string, uid: Uid, status: ModelStatus, metadata: Option<string>,
                                   entry: Option<Child>)

  datatype Cache = Cache(
    models: map<ModelKey, CacheEntry>,
    parents: map<Identity, Parent>,
    evicted: set<ModelKey>,
    invalidated: map<ModelKey, set<Uid>>)

  /** hfArtifactRecoveryParent accepts the record. */
  predicate RecoveryOk(id: Identity, p: Parent) {
    CanonicalPath(id, p.localPath) && forall key :: key in p.children ==> key != "" && p.children[key] != ""
  }

  /** A task without UID is blocked as soon as any UID of its model is. */
  predicate IsInvalidated(c: Cache, key: ModelKey, uid: Uid) {
    key in c.invalidated && (uid == "" || uid in c.invalidated[key])
  }

  predicate IsBlocked(c: Cache, key: ModelKey, uid: Uid) {
    IsInvalidated(c, key, uid) || (key in c.models && c.models[key].uid != "" && uid != "" && c.models[key].uid != uid)
  }

  // ---- the transitions ----

  function WithoutChildren(p: Parent, keys: set<ModelKey>): Parent {
    p.(children := p.children - keys, saved := p.saved - keys)
  }

  /** evictCachedModelLocked: also out of every cached parent. */
  function Evict(c: Cache, key: ModelKey): Cache {
    Cache(c.models - {key},
          map id | id in c.parents ::
            if RecoveryOk(id, c.parents[id]) then WithoutChildren(c.parents[id], {key}) else c.parents[id],
          c.evicted + {key}, c.invalidated)
  }

  function Invalidate(c: Cache, key: ModelKey, uid: Uid): Cache {
    var evicted := Evict(c, key);
    if uid == "" then evicted
    else evicted.(invalidated :=
                  c.invalidated[key := (if key in c.invalidated then c.invalidated[key] else {}) + {uid}])
  }

  predicate IsOrdinary(model: Child) {
    model.parentKey.None? && model.pendingDeletion.None? && model.pendingDownload.None?
  }

  /** cacheCommittedModelEntryLocked. */
  function CacheModel(c: Cache, before: map<ModelKey, Child>, after: map<ModelKey, Child>, key: ModelKey,
                      modelId: ModelKey, uid: Uid): Cache
    requires key in after
  {
    var model := after[key];
    if model.name == "" then c
    else if model.status == ModelDeleted then Evict(c, key)
    else
      var known := key in c.models;
      var entry := if known then c.models[key] else CacheEntry("", "", model.status, None, None);
      if IsOrdinary(model) && entry.entry.None? then
        if modelId == "" && (key !in before || before[key] != model) && !known && key !in c.evicted
          && !IsInvalidated(c, key, "")
        then c.(models := c.models[key := CacheEntry(model.name, "", model.status, None, None)])
        else c
      else
        var adopts := key == modelId && !IsBlocked(c, key, uid);
        var owned := if adopts then entry.(uid := uid) else entry;
        var kept := if adopts then c.(evicted := c.evicted - {key}) else c;
        if key in kept.evicted || IsInvalidated(kept, key, owned.uid) then kept
        else kept.(models :=
                   kept.models[key := owned.(name := model.name, status := model.status, entry := Some(model))])
  }

  /** cacheCommittedHfParentLocked: the snapshot leaves evicted children out. */
  function CacheParent(c: Cache, id: Identity, p: Parent): Cache {
    if RecoveryOk(id, p) then c.(parents := c.parents[id := WithoutChildren(p, c.evicted * p.children.Keys)]) else c
  }

  function EvictAll(c: Cache, order: seq<ModelKey>): Cache {
    if order == [] then c else Evict(EvictAll(c, order[..|order| - 1]), order[|order| - 1])
  }

  function CacheModels(c: Cache, before: map<ModelKey, Child>, after: map<ModelKey, Child>, order: seq<ModelKey>,
                       modelId: ModelKey, uid: Uid): Cache
    requires forall k :: k in order ==> k in after
  {
    if order == [] then c
    else CacheModel(CacheModels(c, before, after, order[..|order| - 1], modelId, uid), before, after,
                    order[|order| - 1], modelId, uid)
  }

  function CacheParents(c: Cache, parents: map<Identity, Parent>, order: seq<Identity>): Cache
    requires forall id :: id in order ==> id in parents
  {
    if order == [] then c
    else CacheParent(CacheParents(c, parents, order[..|order| - 1]), order[|order| - 1], parents[order[|order| - 1]])
  }

  /** The orders in which the three loops happen to visit the records. */
  datatype Visit = Visit(gone: seq<ModelKey>, models: seq<ModelKey>, parents: seq<Identity>)

  ghost predicate Covers(v: Visit, before: Store, after: Store) {
    && (forall k :: k in v.gone <==> k in before.children && k !in after.children)
    && (forall k :: k in v.models <==> k in after.children)
    && (forall id :: id in v.parents <==> id in after.parents)
  }

  /** cacheCommittedConfigMapEntries: removals, then children, then parents. */
  ghost function CacheCommitted(c: Cache, before: Store, after: Store, modelId: ModelKey, uid: Uid, v: Visit): Cache
    requires Covers(v, before, after)
  {
    var dropped := c.(parents := c.parents - (before.parents.Keys - after.parents.Keys));
    var evicted := EvictAll(dropped, v.gone);
    CacheParents(CacheModels(evicted, before.children, after.children, v.models, modelId, uid), after.parents,
                 v.parents)
  }

  /** cacheOrdinaryModel. */
  function CacheOrdinary(c: Cache, key: ModelKey, name: string, uid: Uid, status: Option<ModelStatus>,
                         metadata: Option<string>): Cache {
    if IsBlocked(c, key, uid) || (key in c.models && c.models[key].entry.Some?) then c
    else
      var entry := if key in c.models then c.models[key] else CacheEntry(name, "", ModelUpdating, None, None);
      var updated := entry.(uid := uid,
                            status := if status.Some? then status.value else entry.status,
                            metadata := if metadata.Some? then metadata else entry.metadata);
      c.(models := c.models[key := updated], evicted := c.evicted - {key})
  }

  /** adoptPendingDeletionUID after its checks: the replaced owner's UID is invalidated. */
  function Adopt(c: Cache, key: ModelKey, child: Child, uid: Uid): Cache {
    if IsInvalidated(c, key, uid) then c
    else
      var owner := if key in c.models then c.models[key].uid else "";
      var fenced := if owner != "" && owner != uid
                    then c.(invalidated :=
                            c.invalidated[key := (if key in c.invalidated then c.invalidated[key] else {}) + {owner}])
                    else c;
      fenced.(models := c.models[key := CacheEntry(child.name, uid, child.status, None, Some(child))],
              evicted := c.evicted - {key})
  }

  // ---- no resurrection ----

  /** An evicted model is in no cache. */
  ghost predicate Clean(c: Cache) {
    && (forall key :: key in c.evicted ==> key !in c.models)
    && (forall id :: id in c.parents ==>
        RecoveryOk(id, c.parents[id]) && c.parents[id].saved.Keys <= c.parents[id].children.Keys)
    && (forall id, key :: id in c.parents && key in c.evicted ==> key !in c.parents[id].children)
  }

  ghost predicate SavedWithin(s: Store) {
    forall id :: id in s.parents ==> s.parents[id].saved.Keys <= s.parents[id].children.Keys
  }

  lemma EvictKeepsClean(c: Cache, key: ModelKey)
    requires Clean(c)
    ensures Clean(Evict(c, key))
  {
  }

  lemma CacheModelKeepsClean(c: Cache, before: map<ModelKey, Child>, after: map<ModelKey, Child>, key: ModelKey,
                             modelId: ModelKey, uid: Uid)
    requires Clean(c) && key in after
    ensures Clean(CacheModel(c, before, after, key, modelId, uid))
  {
    if after[key].status == ModelDeleted { EvictKeepsClean(c, key); }
  }

  lemma CacheParentKeepsClean(c: Cache, id: Identity, p: Parent)
    requires Clean(c) && p.saved.Keys <= p.children.Keys
    ensures Clean(CacheParent(c, id, p))
  {
  }

  lemma {:induction false} EvictAllKeepsClean(c: Cache, order: seq<ModelKey>)
    requires Clean(c)
    ensures Clean(EvictAll(c, order))
  {
    if order != [] {
      EvictAllKeepsClean(c, order[..|order| - 1]);
      EvictKeepsClean(EvictAll(c, order[..|order| - 1]), order[|order| - 1]);
    }
  }

  lemma {:induction false} CacheModelsKeepClean(c: Cache, before: map<ModelKey, Child>, after: map<ModelKey, Child>,
                                                order: seq<ModelKey>, modelId: ModelKey, uid: Uid)
    requires Clean(c) && forall k :: k in order ==> k in after
    ensures Clean(CacheModels(c, before, after, order, modelId, uid))
  {
    if order != [] {
      CacheModelsKeepClean(c, before, after, order[..|order| - 1], modelId, uid);
      CacheModelKeepsClean(CacheModels(c, before, after, order[..|order| - 1], modelId, uid), before, after,
                           order[|order| - 1], modelId, uid);
    }
  }

  lemma {:induction false} CacheParentsKeepClean(c: Cache, s: Store, order: seq<Identity>)
    requires Clean(c) && SavedWithin(s) && forall id :: id in order ==> id in s.parents
    ensures Clean(CacheParents(c, s.parents, order))
  {
    if order != [] {
      CacheParentsKeepClean(c, s, order[..|order| - 1]);
      CacheParentKeepsClean(CacheParents(c, s.parents, order[..|order| - 1]), order[|order| - 1],
                            s.parents[order[|order| - 1]]);
    }
  }

  /** The ways the caches change. */
  datatype CacheOp =
    | Committed(before: Store, after: Store, modelId: ModelKey, uid: Uid, visit: Visit)
    | Evicted(key: ModelKey)
    | Invalidated(key: ModelKey, uid: Uid)
    | Ordinary(key: ModelKey, name: string, uid: Uid, status: Option<ModelStatus>, metadata: Option<string>)
    | Adopted(key: ModelKey, child: Child, uid: Uid)
    | ForgotParent(id: Identity)

  /** Committed stores are reachable ones, so their saved statuses belong to recorded children. */
  ghost predicate Possible(op: CacheOp) {
    op.Committed? ==> Covers(op.visit, op.before, op.after) && SavedWithin(op.after)
  }

  ghost function CacheStep(c: Cache, op: CacheOp): Cache
    requires Possible(op)
  {
    match op
    case Committed(before, after, modelId, uid, visit) => CacheCommitted(c, before, after, modelId, uid, visit)
    case Evicted(key) => Evict(c, key)
    case Invalidated(key, uid) => Invalidate(c, key, uid)
    case Ordinary(key, name, uid, status, metadata) => CacheOrdinary(c, key, name, uid, status, metadata)
    case Adopted(key, child, uid) => Adopt(c, key, child, uid)
    case ForgotParent(id) => c.(parents := c.parents - {id})
  }

  lemma CacheStepKeepsClean(c: Cache, op: CacheOp)
    requires Clean(c) && Possible(op)
    ensures Clean(CacheStep(c, op))
  {
    if op.Committed? {
      var dropped := c.(parents := c.parents - (op.before.parents.Keys - op.after.parents.Keys));
      EvictAllKeepsClean(dropped, op.visit.gone);
      var evicted := EvictAll(dropped, op.visit.gone);
      CacheModelsKeepClean(evicted, op.before.children, op.after.children, op.visit.models, op.modelId, op.uid);
      CacheParentsKeepClean(CacheModels(evicted, op.before.children, op.after.children, op.visit.models, op.modelId,
                                        op.uid), op.after, op.visit.parents);
    } else if op.Evicted? || op.Invalidated? {
      EvictKeepsClean(c, op.key);
    }
  }

  ghost function CacheAfter(ops: seq<CacheOp>): Cache
    requires forall i :: 0 <= i < |ops| ==> Possible(ops[i])
  {
    if ops == [] then Cache(map[], map[], {}, map[]) else CacheStep(CacheAfter(ops[..|ops| - 1]), ops[|ops| - 1])
  }

  /** After every run of cache updates, an evicted model is in no cache and in no cached parent. */
  lemma {:induction false} EvictedStaysOut(ops: seq<CacheOp>)
    requires forall i :: 0 <= i < |ops| ==> Possible(ops[i])
    ensures Clean(CacheAfter(ops))
  {
    if ops != [] {
      EvictedStaysOut(ops[..|ops| - 1]);
      CacheStepKeepsClean(CacheAfter(ops[..|ops| - 1]), ops[|ops| - 1]);
    }
  }

  // ---- caches filled from reachable stores ----

  predicate ParentOk(p: Parent, next: LockId) {
    LockShape(p) && SavedShape(p) && p.lockId < next && p.lastCompleted < next
  }

  /** Cached records are as reachable stores hold them. */
  ghost predicate Sound(c: Cache, next: LockId) {
    && (forall id :: id in c.parents ==> ParentOk(c.parents[id], next))
    && (forall key :: key in c.models && c.models[key].entry.Some? ==> OneRole(c.models[key].entry.value))
    && "" !in c.models
  }

  ghost predicate ChildrenOk(children: map<ModelKey, Child>) {
    "" !in children && forall key :: key in children ==> OneRole(children[key])
  }

  ghost predicate ParentsOk(parents: map<Identity, Parent>, next: LockId) {
    forall id :: id in parents ==> ParentOk(parents[id], next)
  }

  lemma EvictKeepsSound(c: Cache, next: LockId, key: ModelKey)
    requires Sound(c, next)
    ensures Sound(Evict(c, key), next)
  {
  }

  /** The caches differ in the entry of one model at most, which holds a well-formed record if any. */
  predicate OneEntry(c: Cache, c': Cache, key: ModelKey) {
    && c'.parents == c.parents
    && (c'.models == c.models ||
        (key in c'.models && c'.models == c.models[key := c'.models[key]]
         && (c'.models[key].entry.Some? ==> OneRole(c'.models[key].entry.value))))
  }

  lemma OneEntryKeepsSound(c: Cache, next: LockId, c': Cache, key: ModelKey)
    requires Sound(c, next) && key != "" && OneEntry(c, c', key)
    ensures Sound(c', next)
  {
  }

  lemma CacheModelSetsOne(c: Cache, before: map<ModelKey, Child>, after: map<ModelKey, Child>, key: ModelKey,
                          modelId: ModelKey, uid: Uid)
    requires key in after && OneRole(after[key]) && (after[key].name != "" ==> after[key].status != ModelDeleted)
    ensures OneEntry(c, CacheModel(c, before, after, key, modelId, uid), key)
  {
  }

  lemma CacheModelKeepsSound(c: Cache, next: LockId, before: map<ModelKey, Child>, after: map<ModelKey, Child>,
                             key: ModelKey, modelId: ModelKey, uid: Uid)
    requires Sound(c, next) && ChildrenOk(after) && key in after
    ensures Sound(CacheModel(c, before, after, key, modelId, uid), next)
  {
    if after[key].name != "" && after[key].status == ModelDeleted {
      EvictKeepsSound(c, next, key);
    } else {
      CacheModelSetsOne(c, before, after, key, modelId, uid);
      OneEntryKeepsSound(c, next, CacheModel(c, before, after, key, modelId, uid), key);
    }
  }

  lemma CacheParentKeepsSound(c: Cache, next: LockId, id: Identity, p: Parent)
    requires Sound(c, next) && ParentOk(p, next)
    ensures Sound(CacheParent(c, id, p), next)
  {
  }

  lemma {:induction false} EvictAllKeepsSound(c: Cache, next: LockId, order: seq<ModelKey>)
    requires Sound(c, next)
    ensures Sound(EvictAll(c, order), next)
  {
    if order != [] {
      EvictAllKeepsSound(c, next, order[..|order| - 1]);
      EvictKeepsSound(EvictAll(c, order[..|order| - 1]), next, order[|order| - 1]);
    }
  }

  lemma {:induction false} CacheModelsKeepSound(c: Cache, next: LockId, before: map<ModelKey, Child>,
                                                after: map<ModelKey, Child>,
                                                order: seq<ModelKey>, modelId: ModelKey, uid: Uid)
    requires Sound(c, next) && ChildrenOk(after) && forall k :: k in order ==> k in after
    ensures Sound(CacheModels(c, before, after, order, modelId, uid), next)
  {
    if order != [] {
      var front := order[..|order| - 1];
      CacheModelsKeepSound(c, next, before, after, front, modelId, uid);
      CacheModelKeepsSound(CacheModels(c, before, after, front, modelId, uid), next, before, after, order[|order| - 1],
                           modelId, uid);
    }
  }

  lemma {:induction false} CacheParentsKeepSound(c: Cache, next: LockId, parents: map<Identity, Parent>,
                                                 order: seq<Identity>)
    requires Sound(c, next) && ParentsOk(parents, next) && forall id :: id in order ==> id in parents
    ensures Sound(CacheParents(c, parents, order), next)
  {
    if order != [] {
      var front, id := order[..|order| - 1], order[|order| - 1];
      CacheParentsKeepSound(c, next, parents, front);
      CacheParentKeepsSound(CacheParents(c, parents, front), next, id, parents[id]);
    }
  }

  lemma CommittedKeepsSound(c: Cache, next: LockId, before: Store, after: Store, modelId: ModelKey, uid: Uid, v: Visit)
    requires Sound(c, next) && ChildrenOk(after.children) && ParentsOk(after.parents, next) && Covers(v, before, after)
    ensures Sound(CacheCommitted(c, before, after, modelId, uid, v), next)
  {
    var dropped := c.(parents := c.parents - (before.parents.Keys - after.parents.Keys));
    EvictAllKeepsSound(dropped, next, v.gone);
    var evicted := EvictAll(dropped, v.gone);
    CacheModelsKeepSound(evicted, next, before.children, after.children, v.models, modelId, uid);
    CacheParentsKeepSound(CacheModels(evicted, before.children, after.children, v.models, modelId, uid), next,
                          after.parents, v.parents);
  }

  // ---- which models a commit can cache ----

  lemma {:induction false} EvictAllCaches(c: Cache, order: seq<ModelKey>)
    ensures EvictAll(c, order).models.Keys <= c.models.Keys
  {
    if order != [] { EvictAllCaches(c, order[..|order| - 1]); }
  }

  lemma CacheModelCaches(c: Cache, before: map<ModelKey, Child>, after: map<ModelKey, Child>, key: ModelKey,
                         modelId: ModelKey, uid: Uid)
    requires key in after
    ensures CacheModel(c, before, after, key, modelId, uid).models.Keys <= c.models.Keys + {key}
  {
  }

  lemma {:induction false} CacheModelsCache(c: Cache, before: map<ModelKey, Child>, after: map<ModelKey, Child>,
                                            order: seq<ModelKey>, modelId: ModelKey, uid: Uid)
    requires forall k :: k in order ==> k in after
    ensures CacheModels(c, before, after, order, modelId, uid).models.Keys <= c.models.Keys + after.Keys
  {
    if order != [] {
      var front := order[..|order| - 1];
      CacheModelsCache(c, before, after, front, modelId, uid);
      CacheModelCaches(CacheModels(c, before, after, front, modelId, uid), before, after, order[|order| - 1], modelId,
                       uid);
    }
  }

  lemma {:induction false} CacheParentsCache(c: Cache, parents: map<Identity, Parent>, order: seq<Identity>)
    requires forall id :: id in order ==> id in parents
    ensures CacheParents(c, parents, order).models == c.models
  {
    if order != [] { CacheParentsCache(c, parents, order[..|order| - 1]); }
  }

  /** A commit caches no model but those it found and those already cached. */
  lemma CommittedCaches(c: Cache, before: Store, after: Store, modelId: ModelKey, uid: Uid, v: Visit)
    requires Covers(v, before, after)
    ensures CacheCommitted(c, before, after, modelId, uid, v).models.Keys <= c.models.Keys + after.children.Keys
  {
    var dropped := c.(parents := c.parents - (before.parents.Keys - after.parents.Keys));
    var evicted := EvictAll(dropped, v.gone);
    EvictAllCaches(dropped, v.gone);
    CacheModelsCache(evicted, before.children, after.children, v.models, modelId, uid);
    CacheParentsCache(CacheModels(evicted, before.children, after.children, v.models, modelId, uid), after.parents,
                      v.parents);
  }

  // ---- an invalidated UID is powerless ----

  lemma {:induction false} FoldsKeepInvalidated(c: Cache, before: map<ModelKey, Child>, after: map<ModelKey, Child>,
                                                order: seq<ModelKey>, modelId: ModelKey, uid: Uid)
    requires forall k :: k in order ==> k in after
    ensures CacheModels(c, before, after, order, modelId, uid).invalidated == c.invalidated
  {
    if order != [] { FoldsKeepInvalidated(c, before, after, order[..|order| - 1], modelId, uid); }
  }

  lemma {:induction false} EvictAllKeepsInvalidated(c: Cache, order: seq<ModelKey>)
    ensures EvictAll(c, order).invalidated == c.invalidated
  {
    if order != [] { EvictAllKeepsInvalidated(c, order[..|order| - 1]); }
  }

  lemma {:induction false} CacheParentsKeepInvalidated(c: Cache, parents: map<Identity, Parent>, order: seq<Identity>)
    requires forall id :: id in order ==> id in parents
    ensures CacheParents(c, parents, order).invalidated == c.invalidated
  {
    if order != [] { CacheParentsKeepInvalidated(c, parents, order[..|order| - 1]); }
  }

  lemma CommittedKeepsInvalidated(c: Cache, before: Store, after: Store, modelId: ModelKey, uid: Uid, v: Visit)
    requires Covers(v, before, after)
    ensures CacheCommitted(c, before, after, modelId, uid, v).invalidated == c.invalidated
  {
    var dropped := c.(parents := c.parents - (before.parents.Keys - after.parents.Keys));
    var evicted := EvictAll(dropped, v.gone);
    EvictAllKeepsInvalidated(dropped, v.gone);
    FoldsKeepInvalidated(evicted, before.children, after.children, v.models, modelId, uid);
    CacheParentsKeepInvalidated(CacheModels(evicted, before.children, after.children, v.models, modelId, uid),
                                after.parents, v.parents);
  }

  /** The mutation only brought back records that the cache holds. */
  predicate RestoredFrom(c: Cache, before: map<ModelKey, Child>, after: map<ModelKey, Child>) {
    && (forall k :: k in before ==> k in after)
    && (forall k :: k in after && (k !in before || before[k] != after[k]) ==> k in c.models || k in c.evicted)
  }

  lemma CacheModelKeepsKnown(c: Cache, before: map<ModelKey, Child>, after: map<ModelKey, Child>, key: ModelKey,
                             modelId: ModelKey, uid: Uid)
    requires RestoredFrom(c, before, after) && key in after && key != modelId
    ensures RestoredFrom(CacheModel(c, before, after, key, modelId, uid), before, after)
  {
  }

  lemma StaleModelIsARead(c: Cache, before: map<ModelKey, Child>, after: map<ModelKey, Child>, k: ModelKey,
                          key: ModelKey, uid: Uid)
    requires IsInvalidated(c, key, uid) && k in after && k != "" && key != "" && RestoredFrom(c, before, after)
    ensures CacheModel(c, before, after, k, key, uid) == CacheModel(c, before, after, k, "", "")
  {
  }

  lemma {:induction false} StaleModelsAreARead(c: Cache, before: map<ModelKey, Child>, after: map<ModelKey, Child>,
                                               order: seq<ModelKey>, key: ModelKey, uid: Uid)
    requires IsInvalidated(c, key, uid) && key != "" && "" !in after && RestoredFrom(c, before, after)
    requires forall k :: k in order ==> k in after
    ensures CacheModels(c, before, after, order, key, uid) == CacheModels(c, before, after, order, "", "")
    ensures RestoredFrom(CacheModels(c, before, after, order, "", ""), before, after)
  {
    if order != [] {
      var front, last := order[..|order| - 1], order[|order| - 1];
      StaleModelsAreARead(c, before, after, front, key, uid);
      FoldsKeepInvalidated(c, before, after, front, key, uid);
      var done := CacheModels(c, before, after, front, "", "");
      StaleModelIsARead(done, before, after, last, key, uid);
      CacheModelKeepsKnown(done, before, after, last, "", "");
    }
  }

  lemma VisitsOnly(order: seq<ModelKey>, keys: set<ModelKey>)
    requires forall k :: k in order ==> k in keys
    ensures keys == {} ==> order == []
  {
    if order != [] { assert order[0] in keys; }
  }

  /** A step carrying an invalidated UID leaves the caches as a plain read of the same two ConfigMaps would. */
  lemma StaleCommitIsARead(c: Cache, before: Store, after: Store, key: ModelKey, uid: Uid, v: Visit)
    requires IsInvalidated(c, key, uid) && key != "" && "" !in after.children && Covers(v, before, after)
    requires RestoredFrom(c, before.children, after.children)
    ensures CacheCommitted(c, before, after, key, uid, v) == CacheCommitted(c, before, after, "", "", v)
  {
    var dropped := c.(parents := c.parents - (before.parents.Keys - after.parents.Keys));
    VisitsOnly(v.gone, before.children.Keys - after.children.Keys);
    StaleModelsAreARead(dropped, before.children, after.children, v.models, key, uid);
  }

  /** The model mutations, each carrying the UID of the task that issued it. */
  predicate CarriesUid(op: Op) {
    op.AddReference? || op.RemoveReference? || op.Remember? || op.BeginDownloadDeletion? || op.Claim?
      || op.OwnDeletion? || op.FinishDeletion?
    || op.StatusWrite? || op.MetadataWrite? || op.ProgressWrite?
  }

  /**
   The flags of a mutation are what the caches say about its key and UID; an invalidated UID is never
   proven current.
   */
  predicate IssuedUnder(c: Cache, op: Op, uid: Uid)
    requires CarriesUid(op)
  {
    && (!op.Claim? ==> op.blocked == IsBlocked(c, op.key, uid))
    && (op.BeginDownloadDeletion? || op.Claim? ==> op.uid == uid && (op.proven ==> !IsInvalidated(c, op.key, uid)))
  }

  /**
   Once its UID is invalidated, no status, metadata, progress, reference, intent or receipt write changes
   any record.
   */
  lemma InvalidatedUidWritesNothing(w: World, c: Cache, op: Op, uid: Uid)
    requires CarriesUid(op) && IssuedUnder(c, op, uid) && IsInvalidated(c, op.key, uid)
    ensures Step(w, op).store == w.store
  {
  }

  // ---- what committing one record means ----

  function OwnerOf(c: Cache, key: ModelKey): Uid {
    if key in c.models then c.models[key].uid else ""
  }

  /** The mutation was this model's own, under a UID that may write. */
  predicate MayAdopt(c: Cache, key: ModelKey, modelId: ModelKey, uid: Uid) {
    key == modelId && !IsBlocked(c, key, uid)
  }

  /**
   Committing `model` under `key` touches no other model and no invalidation. A Deleted one is evicted.
   The owner changes, and an eviction ends, only by a mutation of the model's own under a UID that may
   write. A shared record is taken unless the model is evicted or its owner invalidated, and whatever
   is taken is the committed record.
   */
  ghost predicate TakesModel(c: Cache, c': Cache, key: ModelKey, model: Child, modelId: ModelKey, uid: Uid) {
    var deleted := model.name != "" && model.status == ModelDeleted;
    var owner := if MayAdopt(c, key, modelId, uid) then uid else OwnerOf(c, key);
    && c'.invalidated == c.invalidated
    && (forall k :: k != key ==> Get(c'.models, k) == Get(c.models, k) && (k in c'.evicted <==> k in c.evicted))
    && (deleted ==> key !in c'.models && key in c'.evicted)
    && (key in c'.models ==> OwnerOf(c', key) == OwnerOf(c, key) || OwnerOf(c', key) == owner)
    && (key in c.evicted && !MayAdopt(c, key, modelId, uid) && !deleted ==>
        key in c'.evicted && Get(c'.models, key) == Get(c.models, key))
    && (Get(c'.models, key) != Get(c.models, key) && key in c'.models && c'.models[key].entry.Some? ==>
          c'.models[key].entry == Some(model) && key !in c'.evicted && !IsInvalidated(c', key, owner))
    && (model.name != "" && !deleted && !IsOrdinary(model) && key !in c'.evicted && !IsInvalidated(c', key, owner) ==>
          key in c'.models && c'.models[key].entry == Some(model) && OwnerOf(c', key) == owner)
  }

  lemma CacheModelTakes(c: Cache, before: map<ModelKey, Child>, after: map<ModelKey, Child>, key: ModelKey,
                        modelId: ModelKey, uid: Uid)
    requires key in after
    ensures TakesModel(c, CacheModel(c, before, after, key, modelId, uid), key, after[key], modelId, uid)
  {
  }

  // ---- the code ----

  class Reconciler {
    var modelCache: map<ModelKey, CacheEntry>
    var hfArtifactCache: map<Identity, Parent>
    var evictedModels: set<ModelKey>
    var invalidatedModelUids: map<ModelKey, set<Uid>>

    /** An evicted model is in no cache. */
    ghost predicate Valid()
      reads this
    {
      Clean(State())
    }

    constructor ()
      ensures Valid() && State() == Cache(map[], map[], {}, map[])
    {
      modelCache, hfArtifactCache, evictedModels, invalidatedModelUids := map[], map[], {}, map[];
    }

    function State(): Cache
      reads this
    {
      Cache(modelCache, hfArtifactCache, evictedModels, invalidatedModelUids)
    }

    method EvictModel(key: ModelKey)
      modifies this
      ensures State() == Evict(old(State()), key)
      ensures old(Valid()) ==> Valid()
    {
      if Valid() { EvictKeepsClean(State(), key); }
      modelCache := modelCache - {key};
      evictedModels := evictedModels + {key};
      ghost var was := hfArtifactCache;
      var todo := hfArtifactCache.Keys;
      while todo != {}
        invariant todo <= was.Keys == hfArtifactCache.Keys
        invariant modelCache == old(modelCache) - {key} && evictedModels == old(evictedModels) + {key}
        invariant invalidatedModelUids == old(invalidatedModelUids)
        invariant forall id :: id in todo ==> hfArtifactCache[id] == was[id]
        invariant forall id :: id in was.Keys - todo ==>
                    hfArtifactCache[id] == if RecoveryOk(id, was[id]) then WithoutChildren(was[id], {key}) else was[id]
        decreases todo
      {
        var id :| id in todo;
        var parent := hfArtifactCache[id];
        if RecoveryOk(id, parent) {
          parent := parent.(children := parent.children - {key});
          parent := parent.(saved := parent.saved - {key});
          hfArtifactCache := hfArtifactCache[id := parent];
        }
        todo := todo - {id};
      }
    }

    method InvalidateAndEvict(key: ModelKey, uid: Uid)
      modifies this
      ensures State() == Invalidate(old(State()), key, uid)
    {
      EvictModel(key);
      if uid == "" {
        return;
      }
      if key !in invalidatedModelUids {
        invalidatedModelUids := invalidatedModelUids[key := {}];
      }
      invalidatedModelUids := invalidatedModelUids[key := invalidatedModelUids[key] + {uid}];
    }

    method CommitParent(id: Identity, committed: Parent)
      modifies this
      ensures State() == CacheParent(old(State()), id, committed)
    {
      if !RecoveryOk(id, committed) {
        return;
      }
      var parent := committed;
      var todo := committed.children.Keys;
      while todo != {}
        invariant todo <= committed.children.Keys
        invariant parent == WithoutChildren(committed, evictedModels * (committed.children.Keys - todo))
        invariant State() == old(State())
        decreases todo
      {
        var key :| key in todo;
        if key in evictedModels {
          parent := parent.(children := parent.children - {key}, saved := parent.saved - {key});
        }
        todo := todo - {key};
      }
      assert committed.children.Keys - todo == committed.children.Keys;
      hfArtifactCache := hfArtifactCache[id := parent];
    }

    method CommitModel(before: map<ModelKey, Child>, after: map<ModelKey, Child>, key: ModelKey, modelId: ModelKey,
                       uid: Uid)
      requires key in after
      modifies this
      ensures State() == CacheModel(old(State()), before, after, key, modelId, uid)
      ensures old(Valid()) ==> Valid()
      ensures TakesModel(old(State()), State(), key, after[key], modelId, uid)
    {
      CacheModelTakes(State(), before, after, key, modelId, uid);
      if Valid() { CacheModelKeepsClean(State(), before, after, key, modelId, uid); }
      var model := after[key];
      if model.name == "" {
        return;
      }
      if model.status == ModelDeleted {
        EvictModel(key);
        return;
      }
      var entry := CacheEntry("", "", model.status, None, None);
      if key in modelCache {
        entry := modelCache[key];
      }
      if IsOrdinary(model) && entry.entry.None? {
        if modelId == "" && (key !in before || before[key] != model) && key !in modelCache {
          if key !in evictedModels && !IsInvalidated(State(), key, "") {
            modelCache := modelCache[key := CacheEntry(model.name, "", model.status, None, None)];
          }
        }
        return;
      }
      if key == modelId && !IsBlocked(State(), key, uid) {
        entry := entry.(uid := uid);
        evictedModels := evictedModels - {key};
      }
      if key in evictedModels || IsInvalidated(State(), key, entry.uid) {
        return;
      }
      modelCache := modelCache[key := entry.(name := model.name, status := model.status, entry := Some(model))];
    }

    method CommitEntries(before: Store, after: Store, modelId: ModelKey, uid: Uid) returns (ghost visit: Visit)
      modifies this
      ensures Covers(visit, before, after)
      ensures State() == CacheCommitted(old(State()), before, after, modelId, uid, visit)
    {
      hfArtifactCache := hfArtifactCache - (before.parents.Keys - after.parents.Keys);
      ghost var gone := EvictGone(before.children.Keys - after.children.Keys);
      ghost var models := CommitModels(before.children, after.children, modelId, uid);
      ghost var parents := CommitParents(after.parents);
      visit := Visit(gone, models, parents);
    }

    method EvictGone(keys: set<ModelKey>) returns (ghost order: seq<ModelKey>)
      modifies this
      ensures (forall k :: k in order <==> k in keys) && State() == EvictAll(old(State()), order)
    {
      order := [];
      var todo := keys;
      while todo != {}
        invariant todo <= keys && (forall k :: k in order <==> k in keys - todo)
        invariant State() == EvictAll(old(State()), order)
        decreases todo
      {
        var key :| key in todo;
        EvictModel(key);
        assert (order + [key])[..|order|] == order;
        order := order + [key];
        todo := todo - {key};
      }
    }

    method CommitModels(before: map<ModelKey, Child>, after: map<ModelKey, Child>, modelId: ModelKey, uid: Uid)
      returns (ghost order: seq<ModelKey>)
      modifies this
      ensures forall k :: k in order <==> k in after
      ensures State() == CacheModels(old(State()), before, after, order, modelId, uid)
    {
      order := [];
      var todo := after.Keys;
      while todo != {}
        invariant todo <= after.Keys && (forall k :: k in order <==> k in after.Keys - todo)
        invariant State() == CacheModels(old(State()), before, after, order, modelId, uid)
        decreases todo
      {
        var key :| key in todo;
        CommitModel(before, after, key, modelId, uid);
        assert (order + [key])[..|order|] == order;
        order := order + [key];
        todo := todo - {key};
      }
    }

    method CommitParents(parents: map<Identity, Parent>) returns (ghost order: seq<Identity>)
      modifies this
      ensures (forall id :: id in order <==> id in parents) && State() == CacheParents(old(State()), parents, order)
    {
      order := [];
      var todo := parents.Keys;
      while todo != {}
        invariant todo <= parents.Keys && (forall id :: id in order <==> id in parents.Keys - todo)
        invariant State() == CacheParents(old(State()), parents, order)
        decreases todo
      {
        var id :| id in todo;
        CommitParent(id, parents[id]);
        assert (order + [id])[..|order|] == order;
        order := order + [id];
        todo := todo - {id};
      }
    }
  }
}
