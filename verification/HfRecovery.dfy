/**
 Rebuilding a lost ConfigMap from the caches (restoreCachedConfigMapEntries and
 restoreHfArtifactParent in hf_artifact_recovery.go).
 */
module HfRecovery {
  import opened HfTypes
  import opened HfRepository
  import opened HfRuns
  import opened HfRepair
  import opened HfCache
  import opened Maps

  type Models = map<ModelKey, Child>

  // ---- the transitions ----

  /** ordinaryCachedModelEntry: transient progress is not recoverable. */
  function OrdinaryEntry(e: CacheEntry): Child {
    Child(e.name, e.status, e.metadata, None, None, None, None)
  }

  predicate Restorable(c: Cache, key: ModelKey, includeOrdinary: bool)
    requires key in c.models
  {
    var e := c.models[key];
    e.status != ModelDeleted && !IsBlocked(c, key, e.uid) && (e.entry.Some? || (includeOrdinary && e.name != ""))
  }

  /** cachedConfigMapEntries, without ordinary models unless asked for. */
  function CachedModels(c: Cache, includeOrdinary: bool): Models {
    map key | key in c.models && Restorable(c, key, includeOrdinary) ::
      if c.models[key].entry.Some? then c.models[key].entry.value else OrdinaryEntry(c.models[key])
  }

  /** Its record is not Deleted, and its UID, or any if it has none, was not invalidated. */
  predicate IsTrusted(c: Cache, key: ModelKey) {
    && key in c.models && c.models[key].status != ModelDeleted
    && !(key in c.invalidated && (c.models[key].uid == "" || c.models[key].uid in c.invalidated[key]))
  }

  /** What the model cache says of one model: its shared record, or else its name, status and metadata. */
  function CachedRecord(c: Cache, includeOrdinary: bool, key: ModelKey): Option<Child> {
    if !IsTrusted(c, key) then None
    else
      var e := c.models[key];
      if e.entry.Some? then e.entry
      else if includeOrdinary && e.name != "" then Some(Child(e.name, e.status, e.metadata, None, None, None, None))
      else None
  }

  lemma CachedModelsAre(c: Cache, includeOrdinary: bool, key: ModelKey)
    ensures Get(CachedModels(c, includeOrdinary), key) == CachedRecord(c, includeOrdinary, key)
  {
  }

  /** The model cache holds a shared record of this model that names the parent. */
  predicate HoldsReference(c: Cache, id: Identity, key: ModelKey) {
    IsTrusted(c, key) && c.models[key].entry.Some?
      && c.models[key].entry.value.parentKey == Some(id) && c.models[key].entry.value.status != ModelDeleted
  }

  /** The record a recovery starts from: the current one, or the cached one under the recorded path. */
  function Source(s: Store, models: Models, cached: Parent, parent: Parent, key: ModelKey): Option<Child>
    requires key in parent.children
  {
    if key in s.children then Some(s.children[key])
    else if key in cached.children && cached.children[key] == parent.children[key] && key in models
    then Some(models[key])
    else None
  }

  /** A trusted child of this parent. */
  predicate Recovers(s: Store, models: Models, cached: Parent, id: Identity, parent: Parent, key: ModelKey)
    requires key in parent.children
  {
    var source := Source(s, models, cached, parent, key);
    key in models && source.Some? && source.value.parentKey == Some(id) && source.value.status != ModelDeleted
  }

  /** A recorded child is gone that the cache can bring back. */
  predicate Missing(s: Store, models: Models, cached: Parent, id: Identity, parent: Parent, modelId: ModelKey,
                    key: ModelKey)
    requires key in parent.children
  {
    && key !in s.children && (modelId == "" || modelId == key)
    && key in models && models[key].parentKey == Some(id) && key in cached.children
       && cached.children[key] == parent.children[key]
  }

  predicate NeedsRecovery(s: Store, models: Models, cached: Parent, id: Identity, parent: Parent, modelId: ModelKey) {
    id !in s.parents || exists key :: key in parent.children && Missing(s, models, cached, id, parent, modelId, key)
  }

  /** The trusted children of this parent, with the records they are recovered from. */
  function Found(s: Store, models: Models, cached: Parent, id: Identity, parent: Parent): Models {
    map key | key in parent.children
      && Recovers(s, models, cached, id, parent, key) :: Source(s, models, cached, parent, key).value
  }

  /** A stored parent keeps all its children, a lost one those that were found. */
  function RecoveredChildren(parent: Parent, stored: bool, found: Models): map<ModelKey, Path> {
    if stored then parent.children else map key | key in parent.children && key in found :: parent.children[key]
  }

  /** Found children add the status they have, unless it is the Failed of a repair under way. */
  function RecoveredSaved(parent: Parent, stored: bool, found: Models): map<ModelKey, ModelStatus> {
    (if stored then parent.saved else parent.saved - (parent.children.Keys - found.Keys)) +
    map key | key in found && (key !in parent.saved || found[key].status != ModelFailed) :: found[key].status
  }

  /** For the time being they are Failed. */
  function AsFailed(found: Models): Models {
    map key | key in found :: found[key].(status := ModelFailed)
  }

  /** The group needs validation: not Ready, and not owned unless its owner was cached. */
  function Unvalidated(p: Parent): Parent {
    if p.status == Updating then p else p.(status := Failed, lockId := NO_LOCK, lastCompleted := NO_LOCK)
  }

  function RestoreParent(s: Store, models: Models, cached: Parent, id: Identity, modelId: ModelKey): Store {
    var stored := id in s.parents;
    var parent := if stored then s.parents[id] else cached;
    if stored && (!RecoveryOk(id, parent) || parent.BlocksNewOperation()) then s
    else if !NeedsRecovery(s, models, cached, id, parent, modelId) then s
    else
      var found := Found(s, models, cached, id, parent);
      var restored :=
        Unvalidated(parent.(children := RecoveredChildren(parent, stored, found),
                            saved := RecoveredSaved(parent, stored, found)));
      Store(s.parents[id := restored], s.children + AsFailed(found))
  }

  /** Only the group of a given model, if one is given. */
  predicate Selected(models: Models, id: Identity, modelId: ModelKey) {
    modelId == "" || (modelId in models && models[modelId].parentKey == Some(id))
  }

  function RestoreParents(s: Store, models: Models, parents: map<Identity, Parent>, order: seq<Identity>,
                          modelId: ModelKey): Store
    requires forall id :: id in order ==> id in parents
  {
    if order == [] then s
    else
      var done, id := RestoreParents(s, models, parents, order[..|order| - 1], modelId), order[|order| - 1];
      if RecoveryOk(id, parents[id]) && Selected(models, id, modelId)
      then RestoreParent(done, models, parents[id], id, modelId) else done
  }

  /** Records without a shared parent come back as they were. */
  function RestorePlain(s: Store, models: Models, modelId: ModelKey): Store {
    s.(children := s.children + map key | key in models && key !in s.children && (modelId == "" || modelId == key)
                                          && models[key].parentKey.None?
                                             && models[key].status != ModelDeleted :: models[key])
  }

  function Restore(c: Cache, s: Store, modelId: ModelKey, includeOrdinary: bool, order: seq<Identity>): Outcome<()>
    requires forall id :: id in order ==> id in c.parents
  {
    var models := CachedModels(c, includeOrdinary);
    var t := RestorePlain(RestoreParents(s, models, c.parents, order, modelId), models, modelId);
    if modelId != "" && modelId !in t.children && modelId in models && models[modelId].parentKey.Some? then Rejected
    else Done(t, ())
  }

  // ---- references stay two-sided ----

  /** Restoring one parent into a two-sided store leaves it two-sided. */
  lemma RestoreParentTwoSided(s: Store, models: Models, cached: Parent, id: Identity, modelId: ModelKey)
    requires TwoSided(s)
    ensures TwoSided(RestoreParent(s, models, cached, id, modelId))
  {
    var t := RestoreParent(s, models, cached, id, modelId);
    var parent := if id in s.parents then s.parents[id] else cached;
    if t != s {
      forall i, k ensures Lists(t, i, k) <==> Names(t, i, k) {
        assert Lists(s, i, k) <==> Names(s, i, k);
        assert Lists(s, id, k) <==> Names(s, id, k);
      }
    }
  }

  lemma {:induction false} RestoreParentsTwoSided(s: Store, models: Models, parents: map<Identity, Parent>,
                                                  order: seq<Identity>, modelId: ModelKey)
    requires TwoSided(s) && forall id :: id in order ==> id in parents
    ensures TwoSided(RestoreParents(s, models, parents, order, modelId))
  {
    if order != [] {
      var front, id := order[..|order| - 1], order[|order| - 1];
      RestoreParentsTwoSided(s, models, parents, front, modelId);
      RestoreParentTwoSided(RestoreParents(s, models, parents, front, modelId), models, parents[id], id, modelId);
    }
  }

  lemma RestorePlainTwoSided(s: Store, models: Models, modelId: ModelKey)
    requires TwoSided(s)
    ensures TwoSided(RestorePlain(s, models, modelId))
  {
    var t := RestorePlain(s, models, modelId);
    forall i, k ensures Lists(t, i, k) <==> Names(t, i, k) { assert Lists(s, i, k) <==> Names(s, i, k); }
  }

  /** Recovery into a two-sided store, the lost one included, keeps references two-sided, whatever the caches hold. */
  lemma RestoreKeepsTwoSided(c: Cache, s: Store, modelId: ModelKey, includeOrdinary: bool, order: seq<Identity>)
    requires TwoSided(s) && forall id :: id in order ==> id in c.parents
    ensures var o := Restore(c, s, modelId, includeOrdinary, order); o.Done? ==> TwoSided(o.store)
  {
    var models := CachedModels(c, includeOrdinary);
    RestoreParentsTwoSided(s, models, c.parents, order, modelId);
    RestorePlainTwoSided(RestoreParents(s, models, c.parents, order, modelId), models, modelId);
  }

  // ---- recovery keeps what every run keeps ----

  lemma CachedModelsOk(c: Cache, next: LockId, includeOrdinary: bool)
    requires Sound(c, next)
    ensures ChildrenOk(CachedModels(c, includeOrdinary))
  {
  }

  /** A stored parent has all its children, so there is nothing to recover. */
  lemma StoredNeedsNothing(s: Store, models: Models, cached: Parent, id: Identity, modelId: ModelKey)
    requires TwoSided(s) && id in s.parents
    ensures RestoreParent(s, models, cached, id, modelId) == s
  {
    forall key | key in s.parents[id].children ensures !Missing(s, models, cached, id, s.parents[id], modelId, key) {
      assert Lists(s, id, key) && Names(s, id, key);
    }
  }

  /** A lost parent's children come from the cache, and none of their records is there. */
  lemma LostGoesByCache(s: Store, models: Models, cached: Parent, id: Identity, key: ModelKey)
    requires TwoSided(s) && id !in s.parents && key in Found(s, models, cached, id, cached)
    ensures key !in s.children && key in models && Found(s, models, cached, id, cached)[key] == models[key]
  {
    assert !Lists(s, id, key) && !Names(s, id, key);
  }

  lemma RestoredParentOk(cached: Parent, next: LockId, found: Models)
    requires ParentOk(cached, next) && found.Keys <= cached.children.Keys
    ensures ParentOk(Unvalidated(cached.(children := RecoveredChildren(cached, false, found),
                                         saved := RecoveredSaved(cached, false, found))), next)
  {
  }

  lemma RestoreParentKeepsInv(s: Store, next: LockId, models: Models, cached: Parent, id: Identity, modelId: ModelKey)
    requires Inv(World(s, next)) && ParentOk(cached, next) && ChildrenOk(models)
    ensures Inv(World(RestoreParent(s, models, cached, id, modelId), next))
  {
    if id in s.parents {
      StoredNeedsNothing(s, models, cached, id, modelId);
    } else {
      var found := Found(s, models, cached, id, cached);
      var t := RestoreParent(s, models, cached, id, modelId);
      RestoredParentOk(cached, next, found);
      RestoreParentTwoSided(s, models, cached, id, modelId);
      forall key | key in t.children ensures OneRole(t.children[key]) {
        if key in found { LostGoesByCache(s, models, cached, id, key); }
      }
    }
  }

  lemma {:induction false} RestoreParentsKeepInv(s: Store, next: LockId, models: Models,
                                                 parents: map<Identity, Parent>, order: seq<Identity>,
                                                   modelId: ModelKey)
    requires Inv(World(s, next)) && ParentsOk(parents, next) && ChildrenOk(models)
    requires forall id :: id in order ==> id in parents
    ensures Inv(World(RestoreParents(s, models, parents, order, modelId), next))
  {
    if order != [] {
      var front, id := order[..|order| - 1], order[|order| - 1];
      RestoreParentsKeepInv(s, next, models, parents, front, modelId);
      RestoreParentKeepsInv(RestoreParents(s, models, parents, front, modelId), next, models, parents[id], id, modelId);
    }
  }

  lemma RestorePlainKeepsInv(s: Store, next: LockId, models: Models, modelId: ModelKey)
    requires Inv(World(s, next)) && ChildrenOk(models)
    ensures Inv(World(RestorePlain(s, models, modelId), next))
  {
    RestorePlainTwoSided(s, models, modelId);
  }

  /** Recovery from sound caches leaves a store that every run could have reached. */
  lemma RestoreKeepsInv(c: Cache, s: Store, next: LockId, modelId: ModelKey, includeOrdinary: bool,
                        order: seq<Identity>)
    requires Inv(World(s, next)) && Sound(c, next) && forall id :: id in order ==> id in c.parents
    ensures var o := Restore(c, s, modelId, includeOrdinary, order); o.Done? ==> Inv(World(o.store, next))
  {
    var models := CachedModels(c, includeOrdinary);
    CachedModelsOk(c, next, includeOrdinary);
    RestoreParentsKeepInv(s, next, models, c.parents, order, modelId);
    RestorePlainKeepsInv(RestoreParents(s, models, c.parents, order, modelId), next, models, modelId);
  }

  /** Only records of these models differ, and none is gone. */
  predicate OnlyAdds(models: Models, before: Models, after: Models) {
    && (forall k :: k in before ==> k in after)
    && (forall k :: k in after && (k !in before || before[k] != after[k]) ==> k in models)
  }

  lemma {:induction false} RestoreParentsOnlyAdd(s: Store, models: Models, parents: map<Identity, Parent>,
                                                 order: seq<Identity>, modelId: ModelKey)
    requires forall id :: id in order ==> id in parents
    ensures OnlyAdds(models, s.children, RestoreParents(s, models, parents, order, modelId).children)
  {
    if order != [] {
      RestoreParentsOnlyAdd(s, models, parents, order[..|order| - 1], modelId);
    }
  }

  /** Whatever recovery changes, the cache holds. */
  lemma RestoresFromCache(c: Cache, s: Store, modelId: ModelKey, includeOrdinary: bool, order: seq<Identity>)
    requires forall id :: id in order ==> id in c.parents
    ensures var o := Restore(c, s, modelId, includeOrdinary, order);
            o.Done? ==>
              && RestoredFrom(c, s.children, o.store.children)
              && (forall k :: k in o.store.children ==> k in s.children || k in c.models)
  {
    var models := CachedModels(c, includeOrdinary);
    RestoreParentsOnlyAdd(s, models, c.parents, order, modelId);
  }

  // ---- one record was lost ----

  function Without(s: Store, key: ModelKey): Store {
    s.(children := s.children - {key})
  }

  /** With a model given, at most the group of its cached parent is touched. */
  lemma {:induction false} OnlySelectedGroup(s: Store, models: Models, parents: map<Identity, Parent>,
                                             order: seq<Identity>, key: ModelKey)
    requires key != "" && Distinct(order) && forall id :: id in order ==> id in parents
    ensures RestoreParents(s, models, parents, order, key) ==
              if key in models && models[key].parentKey.Some? && models[key].parentKey.value in order
                 && RecoveryOk(models[key].parentKey.value, parents[models[key].parentKey.value])
              then RestoreParent(s, models, parents[models[key].parentKey.value], models[key].parentKey.value, key)
              else s
  {
    if order != [] {
      var front, id := order[..|order| - 1], order[|order| - 1];
      OnlySelectedGroup(s, models, parents, front, key);
      assert order == front + [id];
    }
  }

  /**
   The caches hold both sides of the lost record's reference, as the stored parent still lists it, and
   nobody owns the parent.
   */
  predicate HeldByCaches(c: Cache, p: Parent, id: Identity, key: ModelKey)
    requires key in p.children
  {
    && HoldsReference(c, id, key)
    && id in c.parents && key in c.parents[id].children && c.parents[id].children[key] == p.children[key]
    && RecoveryOk(id, c.parents[id]) && RecoveryOk(id, p) && !p.BlocksNewOperation()
  }

  lemma HeldIsFound(s: Store, models: Models, cached: Parent, id: Identity, key: ModelKey)
    requires id in s.parents && key in s.parents[id].children && key !in s.children && Rebuilds(models, id, key)
    requires key in cached.children && cached.children[key] == s.parents[id].children[key]
    requires RecoveryOk(id, s.parents[id]) && !s.parents[id].BlocksNewOperation()
    ensures var found := Found(s, models, cached, id, s.parents[id]);
            && key in found && found[key] == models[key]
            && NeedsRecovery(s, models, cached, id, s.parents[id], key)
  {
    assert Missing(s, models, cached, id, s.parents[id], key, key);
  }

  /** What restoring a stored group writes: its record keeps its children, the found children become Failed. */
  lemma StoredGroup(s: Store, models: Models, cached: Parent, id: Identity, key: ModelKey)
    requires id in s.parents && RecoveryOk(id, s.parents[id]) && !s.parents[id].BlocksNewOperation()
    requires NeedsRecovery(s, models, cached, id, s.parents[id], key)
    ensures var t, found := RestoreParent(s, models, cached, id, key), Found(s, models, cached, id, s.parents[id]);
            && id in t.parents && t.parents == s.parents[id := t.parents[id]]
            && t.parents[id] ==
                 Unvalidated(s.parents[id].(saved := RecoveredSaved(s.parents[id], true, found)))
            && t.children == s.children + AsFailed(found)
  {
  }

  lemma StoredParentOk(p: Parent, next: LockId, found: Models)
    requires ParentOk(p, next) && found.Keys <= p.children.Keys
    ensures ParentOk(Unvalidated(p.(saved := RecoveredSaved(p, true, found))), next)
  {
  }

  /** Found children are those that name the parent, and the lost one. */
  lemma FoundAreItsOwn(s: Store, models: Models, cached: Parent, id: Identity, key: ModelKey, k: ModelKey)
    requires TwoSided(s) && Names(s, id, key) && id in s.parents && ChildrenOk(models)
    requires k in Found(Without(s, key), models, cached, id, s.parents[id])
    requires forall j :: j in s.children ==> OneRole(s.children[j])
    ensures var c := Found(Without(s, key), models, cached, id, s.parents[id])[k];
            k in s.parents[id].children && c.parentKey == Some(id) && OneRole(c)
  {
  }

  lemma GroupIsTwoSided(s: Store, t: Store, found: Models, id: Identity, key: ModelKey)
    requires TwoSided(s) && Names(s, id, key) && key in found
    requires id in s.parents && id in t.parents && t.parents == s.parents[id := t.parents[id]]
    requires t.parents[id].children == s.parents[id].children
    requires t.children == Without(s, key).children + AsFailed(found)
    requires forall k :: k in found ==> k in s.parents[id].children && found[k].parentKey == Some(id)
    ensures TwoSided(t) && Names(t, id, key) && Lists(t, id, key)
  {
    forall i, k ensures Lists(t, i, k) <==> Names(t, i, k) {
      assert Lists(s, i, k) <==> Names(s, i, k);
      assert Lists(s, id, k) <==> Names(s, id, k);
    }
    assert Names(t, id, key);
  }

  /** The group of a lost record that the caches hold comes back whole. */
  lemma GroupComesBack(s: Store, next: LockId, models: Models, cached: Parent, id: Identity, key: ModelKey)
    requires Inv(World(s, next)) && Names(s, id, key) && ChildrenOk(models) && Rebuilds(models, id, key)
    requires id in s.parents && key in s.parents[id].children
    requires key in cached.children && cached.children[key] == s.parents[id].children[key]
    requires RecoveryOk(id, s.parents[id]) && !s.parents[id].BlocksNewOperation()
    ensures var t := RestoreParent(Without(s, key), models, cached, id, key);
            Inv(World(t, next)) && Names(t, id, key) && Lists(t, id, key)
  {
    var lost, p := Without(s, key), s.parents[id];
    var t, found := RestoreParent(lost, models, cached, id, key), Found(lost, models, cached, id, p);
    HeldIsFound(lost, models, cached, id, key);
    StoredGroup(lost, models, cached, id, key);
    StoredParentOk(p, next, found);
    forall k | k in found ensures k in p.children && found[k].parentKey == Some(id) && OneRole(found[k]) {
      FoundAreItsOwn(s, models, cached, id, key, k);
    }
    GroupIsTwoSided(s, t, found, id, key);
  }

  /**
   The record of an attached model is lost while its parent still lists it. Restoring that model gives a
   well-formed store again, with both sides of the reference, if and only if the caches hold both sides
   as the parent lists them, both parent records are intact and nobody owns the parent. Otherwise the
   mutation fails or the reference stays one-sided.
   */
  lemma LostRecordComesBackIff(c: Cache, s: Store, next: LockId, id: Identity, key: ModelKey, order: seq<Identity>)
    requires Inv(World(s, next)) && Sound(c, next) && Listing(c, order) && Names(s, id, key) && key != ""
    ensures id in s.parents && key in s.parents[id].children
    ensures var o := Restore(c, Without(s, key), key, false, order);
            && (o.Done? && Inv(World(o.store, next)) <==> HeldByCaches(c, s.parents[id], id, key))
            && (o.Done? && !HeldByCaches(c, s.parents[id], id, key) ==> !TwoSided(o.store))
            && (HeldByCaches(c, s.parents[id], id, key) ==> Names(o.store, id, key) && Lists(o.store, id, key))
  {
    assert Lists(s, id, key);
    var models, lost := CachedModels(c, false), Without(s, key);
    CachedModelsOk(c, next, false);
    OnlySelectedGroup(lost, models, c.parents, order, key);
    if HeldByCaches(c, s.parents[id], id, key) {
      assert id in Elements(order);
      GroupComesBack(s, next, models, c.parents[id], id, key);
      RestorePlainKeepsInv(RestoreParent(lost, models, c.parents[id], id, key), next, models, key);
    } else {
      StaysOneSided(c, s, id, key, order);
    }
  }

  /** The lost model shows its cached status again, unless an earlier repair saved one; the others keep theirs. */
  predicate GroupShows(s: Store, t: Store, id: Identity, key: ModelKey, child: Child) {
    && id in s.parents && key in t.children && t.children[key] == child.(status := ModelFailed)
    && Effective(t, key) == (if child.status == ModelFailed && key in s.parents[id].saved then s.parents[id].saved[key]
                             else child.status)
    && t.children.Keys == s.children.Keys + {key}
    && forall k :: k in s.children && k != key ==>
         t.children[k] == s.children[k].(status := t.children[k].status) && Effective(t, k) == Effective(s, k)
  }

  /** What restoring a group writes, over the records in which one is lost. */
  predicate GroupWritten(s: Store, t: Store, found: Models, id: Identity, key: ModelKey) {
    && id in s.parents && id in t.parents && t.parents == s.parents[id := t.parents[id]]
    && t.parents[id] == Unvalidated(s.parents[id].(saved := RecoveredSaved(s.parents[id], true, found)))
    && t.children == (s.children - {key}) + AsFailed(found)
  }

  lemma OtherShows(s: Store, t: Store, found: Models, id: Identity, key: ModelKey, k: ModelKey)
    requires GroupWritten(s, t, found, id, key) && k in s.children && k != key
    requires k in found ==> found[k] == s.children[k] && s.children[k].parentKey == Some(id)
    ensures k in t.children && t.children[k] == s.children[k].(status := t.children[k].status)
    ensures Effective(t, k) == Effective(s, k)
  {
  }

  lemma LostShows(s: Store, t: Store, found: Models, id: Identity, key: ModelKey, child: Child)
    requires GroupWritten(s, t, found, id, key) && key in found && found[key] == child && child.parentKey == Some(id)
    ensures key in t.children && t.children[key] == child.(status := ModelFailed)
    ensures Effective(t, key) == if child.status == ModelFailed && key in s.parents[id].saved
            then s.parents[id].saved[key]
                                 else child.status
  {
  }

  lemma WrittenShows(s: Store, t: Store, found: Models, id: Identity, key: ModelKey, child: Child)
    requires GroupWritten(s, t, found, id, key) && key in found && found[key] == child && child.parentKey == Some(id)
    requires forall k :: k in found && k != key ==>
               k in s.children && found[k] == s.children[k] && s.children[k].parentKey == Some(id)
    ensures GroupShows(s, t, id, key, child)
  {
    LostShows(s, t, found, id, key, child);
    forall k | k in s.children && k != key
      ensures t.children[k] == s.children[k].(status := t.children[k].status) && Effective(t, k) == Effective(s, k)
    {
      OtherShows(s, t, found, id, key, k);
    }
  }

  lemma FoundIsThere(s: Store, models: Models, cached: Parent, id: Identity, key: ModelKey, k: ModelKey)
    requires TwoSided(s) && Names(s, id, key) && id in s.parents
    requires k in Found(Without(s, key), models, cached, id, s.parents[id]) && k != key
    ensures k in s.children && s.children[k].parentKey == Some(id)
    ensures Found(Without(s, key), models, cached, id, s.parents[id])[k] == s.children[k]
  {
    assert Lists(s, id, k) && Names(s, id, k);
  }

  lemma GroupStatuses(s: Store, models: Models, cached: Parent, id: Identity, key: ModelKey)
    requires TwoSided(s) && Names(s, id, key) && Rebuilds(models, id, key)
    requires id in s.parents && key in s.parents[id].children
    requires key in cached.children && cached.children[key] == s.parents[id].children[key]
    requires RecoveryOk(id, s.parents[id]) && !s.parents[id].BlocksNewOperation()
    ensures GroupShows(s, RestoreParent(Without(s, key), models, cached, id, key), id, key, models[key])
  {
    var lost, p := Without(s, key), s.parents[id];
    var t, found := RestoreParent(lost, models, cached, id, key), Found(lost, models, cached, id, p);
    HeldIsFound(lost, models, cached, id, key);
    StoredGroup(lost, models, cached, id, key);
    assert GroupWritten(s, t, found, id, key);
    forall k | k in found && k != key ensures k in s.children && found[k] == s.children[k]
                                           && s.children[k].parentKey == Some(id) {
      FoundIsThere(s, models, cached, id, key, k);
    }
    WrittenShows(s, t, found, id, key, models[key]);
  }

  /** Restoring a lost record that the caches hold brings its status back and costs no other model its own. */
  lemma LostRecordShowsStatus(c: Cache, s: Store, next: LockId, id: Identity, key: ModelKey, order: seq<Identity>)
    requires Inv(World(s, next)) && Sound(c, next) && Listing(c, order) && Names(s, id, key) && key != ""
    requires Lists(s, id, key) && HeldByCaches(c, s.parents[id], id, key)
    ensures var o := Restore(c, Without(s, key), key, false, order);
            o.Done? && GroupShows(s, o.store, id, key, c.models[key].entry.value)
  {
    var models, lost := CachedModels(c, false), Without(s, key);
    HeldIsRebuilt(c, false, id, key);
    OnlySelectedGroup(lost, models, c.parents, order, key);
    assert id in Elements(order);
    GroupStatuses(s, models, c.parents[id], id, key);
    NothingPlain(RestoreParent(lost, models, c.parents[id], id, key), models, key);
  }

  lemma NothingPlain(s: Store, models: Models, key: ModelKey)
    requires key in s.children && key != ""
    ensures RestorePlain(s, models, key) == s
  {
  }

  lemma StaysOneSided(c: Cache, s: Store, id: Identity, key: ModelKey, order: seq<Identity>)
    requires TwoSided(s) && Listing(c, order) && Names(s, id, key) && key != "" && Lists(s, id, key)
    requires !HeldByCaches(c, s.parents[id], id, key)
    ensures var o := Restore(c, Without(s, key), key, false, order); o.Done? ==> !TwoSided(o.store)
  {
    var models, lost := CachedModels(c, false), Without(s, key);
    var o := Restore(c, lost, key, false, order);
    OnlySelectedGroup(lost, models, c.parents, order, key);
    if o.Done? {
      assert Lists(o.store, id, key) && !Names(o.store, id, key);
    }
  }

  // ---- the whole ConfigMap was lost ----

  const LOST := Store(map[], map[])

  /** The cached child still belongs to this parent. */
  predicate Rebuilds(models: Models, id: Identity, key: ModelKey) {
    key in models && models[key].parentKey == Some(id) && models[key].status != ModelDeleted
  }

  /** The status a child had when it was last cached, or before the repair that was then under way. */
  function CachedStatus(models: Models, cached: Parent, key: ModelKey): ModelStatus
    requires key in models
  {
    if key in cached.saved && models[key].status == ModelFailed then cached.saved[key] else models[key].status
  }

  lemma HeldIsRebuilt(c: Cache, includeOrdinary: bool, id: Identity, key: ModelKey)
    ensures Rebuilds(CachedModels(c, includeOrdinary), id, key) <==> HoldsReference(c, id, key)
    ensures HoldsReference(c, id, key) ==> CachedModels(c, includeOrdinary)[key] == c.models[key].entry.value
  {
    CachedModelsAre(c, includeOrdinary, key);
  }

  function RebuiltSaved(models: Models, cached: Parent, id: Identity): map<ModelKey, ModelStatus> {
    map key | key in cached.children && Rebuilds(models, id, key) :: CachedStatus(models, cached, key)
  }

  function RebuiltParent(models: Models, cached: Parent, id: Identity): Parent {
    Unvalidated(cached.(children := map key | key in cached.children
                        && Rebuilds(models, id, key) :: cached.children[key],
                        saved := RebuiltSaved(models, cached, id)))
  }

  predicate Reattaches(models: Models, parents: map<Identity, Parent>, ids: set<Identity>, key: ModelKey)
    requires key in models
  {
    && models[key].parentKey.Some? && models[key].status != ModelDeleted
    && models[key].parentKey.value in ids && models[key].parentKey.value in parents
       && key in parents[models[key].parentKey.value].children
  }

  /** The records rebuilt for the parents in `ids`. */
  function Rebuilt(models: Models, parents: map<Identity, Parent>, ids: set<Identity>): Store {
    Store(map id | id in ids && id in parents :: RebuiltParent(models, parents[id], id),
          map key | key in models && Reattaches(models, parents, ids, key) :: models[key].(status := ModelFailed))
  }

  function RebuiltFound(models: Models, cached: Parent, id: Identity): Models {
    map key | key in cached.children && Rebuilds(models, id, key) :: models[key]
  }

  lemma RebuiltParentAgrees(models: Models, cached: Parent, id: Identity)
    requires cached.saved.Keys <= cached.children.Keys
    ensures var found := RebuiltFound(models, cached, id);
            Unvalidated(cached.(children := RecoveredChildren(cached, false, found),
                                saved := RecoveredSaved(cached, false, found))) == RebuiltParent(models, cached, id)
  {
    var found := RebuiltFound(models, cached, id);
    assert RecoveredSaved(cached, false, found) == RebuiltSaved(models, cached, id);
  }

  /** What is already rebuilt holds nothing of this parent's children: recovery goes by the cached records alone. */
  lemma RebuiltGoesByCache(models: Models, parents: map<Identity, Parent>, ids: set<Identity>, id: Identity)
    requires id in parents && id !in ids
    ensures Found(Rebuilt(models, parents, ids), models, parents[id], id, parents[id]) ==
              RebuiltFound(models, parents[id], id)
  {
  }

  lemma OneMoreGroup(models: Models, parents: map<Identity, Parent>, ids: set<Identity>, id: Identity)
    requires id in parents && id !in ids
    ensures Rebuilt(models, parents, ids + {id}).children == Rebuilt(models, parents, ids).children
            + AsFailed(RebuiltFound(models, parents[id], id))
  {
  }

  /** One more parent, on top of those already rebuilt. */
  lemma RebuildOneMore(models: Models, parents: map<Identity, Parent>, ids: set<Identity>, id: Identity)
    requires id in parents && id !in ids && parents[id].saved.Keys <= parents[id].children.Keys
    ensures RestoreParent(Rebuilt(models, parents, ids), models, parents[id], id, "") ==
              Rebuilt(models, parents, ids + {id})
  {
    RebuiltGoesByCache(models, parents, ids, id);
    RebuiltParentAgrees(models, parents[id], id);
    OneMoreGroup(models, parents, ids, id);
    assert Rebuilt(models, parents, ids).parents[id := RebuiltParent(models, parents[id], id)] ==
             Rebuilt(models, parents, ids + {id}).parents;
  }

  ghost predicate Distinct(order: seq<Identity>) {
    forall i, j :: 0 <= i < j < |order| ==> order[i] != order[j]
  }

  function Elements(order: seq<Identity>): set<Identity> {
    set id | id in order
  }

  lemma {:induction false} RebuildInAnyOrder(c: Cache, models: Models, order: seq<Identity>)
    requires Clean(c) && Distinct(order) && forall id :: id in order ==> id in c.parents
    ensures RestoreParents(LOST, models, c.parents, order, "") == Rebuilt(models, c.parents, Elements(order))
  {
    if order == [] {
      assert Rebuilt(models, c.parents, {}) == LOST;
    } else {
      var front, id := order[..|order| - 1], order[|order| - 1];
      RebuildInAnyOrder(c, models, front);
      RebuildOneMore(models, c.parents, Elements(front), id);
      assert Elements(order) == Elements(front) + {id};
    }
  }

  /** Every cached parent once, in some order. */
  ghost predicate Listing(c: Cache, order: seq<Identity>) {
    Distinct(order) && Elements(order) == c.parents.Keys && forall id :: id in order ==> id in c.parents
  }

  /** The ConfigMap that the caches describe. */
  function RebuiltStore(c: Cache, includeOrdinary: bool): Store {
    var models := CachedModels(c, includeOrdinary);
    RestorePlain(Rebuilt(models, c.parents, c.parents.Keys), models, "")
  }

  /** Rebuilding a lost ConfigMap always succeeds, and the order of the loop does not matter. */
  lemma RebuildsWhatTheCachesHold(c: Cache, includeOrdinary: bool, order: seq<Identity>)
    requires Clean(c) && Listing(c, order)
    ensures Restore(c, LOST, "", includeOrdinary, order) == Done(RebuiltStore(c, includeOrdinary), ())
  {
    RebuildInAnyOrder(c, CachedModels(c, includeOrdinary), order);
  }

  lemma RebuiltTwoSided(models: Models, parents: map<Identity, Parent>)
    ensures TwoSided(Rebuilt(models, parents, parents.Keys))
  {
    var s := Rebuilt(models, parents, parents.Keys);
    forall i, k ensures Lists(s, i, k) <==> Names(s, i, k) { }
  }

  /**
   A rebuilt ConfigMap has two-sided references, no Ready parent and only Failed attached children; every
   cached parent is there again, with its lock owner if it had one; no evicted model is.
   */
  lemma RebuiltIsSafe(c: Cache, includeOrdinary: bool)
    requires Clean(c)
    ensures var s := RebuiltStore(c, includeOrdinary);
            && TwoSided(s) && s.parents.Keys == c.parents.Keys
            && (forall id :: id in s.parents ==>
                s.parents[id].status != Ready && s.parents[id].localPath == c.parents[id].localPath)
            && (forall key :: key in s.children && s.children[key].parentKey.Some? ==>
                s.children[key].status == ModelFailed)
            && (forall id :: id in s.parents && c.parents[id].status == Updating ==>
                  s.parents[id].status == Updating && s.parents[id].lockId == c.parents[id].lockId
                    && s.parents[id].lastCompleted == c.parents[id].lastCompleted)
            && (forall key :: key in c.evicted ==> key !in s.children)
            && (forall id, key :: id in s.parents && key in c.evicted ==>
                key !in s.parents[id].children && key !in s.parents[id].saved)
  {
    var models := CachedModels(c, includeOrdinary);
    RebuiltTwoSided(models, c.parents);
    RestorePlainTwoSided(Rebuilt(models, c.parents, c.parents.Keys), models, "");
  }

  /** Both caches hold the reference: the model's record names the parent, and the parent lists the model. */
  predicate ComesBackTo(c: Cache, id: Identity, key: ModelKey) {
    HoldsReference(c, id, key) && id in c.parents && key in c.parents[id].children
  }

  /** The status a child had when it was last cached, or before the repair that was then under way. */
  function LastStatus(c: Cache, id: Identity, key: ModelKey): ModelStatus
    requires ComesBackTo(c, id, key)
  {
    var child, saved := c.models[key].entry.value, c.parents[id].saved;
    if child.status == ModelFailed && key in saved then saved[key] else child.status
  }

  /** Exactly the references that both caches hold come back, under their paths, as Failed with that status saved. */
  lemma ReattachesExactly(c: Cache, includeOrdinary: bool, id: Identity, key: ModelKey)
    requires Clean(c)
    ensures var s := RebuiltStore(c, includeOrdinary);
            && (Names(s, id, key) <==> ComesBackTo(c, id, key))
            && (ComesBackTo(c, id, key) ==>
                  && s.children[key] == c.models[key].entry.value.(status := ModelFailed)
                  && Lists(s, id, key) && s.parents[id].children[key] == c.parents[id].children[key] != ""
                  && key in s.parents[id].saved && s.parents[id].saved[key] == LastStatus(c, id, key)
                  && CanonicalPath(id, s.parents[id].localPath))
  {
    HeldIsRebuilt(c, includeOrdinary, id, key);
  }

  /** A record without parent comes back exactly as it was cached; an ordinary one only if it is asked for. */
  predicate PlainlyHeld(c: Cache, includeOrdinary: bool, key: ModelKey) {
    && IsTrusted(c, key)
    && match c.models[key].entry
       case Some(child) => child.parentKey.None? && child.status != ModelDeleted
       case None => includeOrdinary && c.models[key].name != ""
  }

  /** Every rebuilt record is a reattached one or such a plain one. */
  lemma PlainRecordsComeBackIff(c: Cache, includeOrdinary: bool, key: ModelKey)
    requires Clean(c)
    ensures var s := RebuiltStore(c, includeOrdinary);
            && (key in s.children && s.children[key].parentKey.None? <==> PlainlyHeld(c, includeOrdinary, key))
            && (PlainlyHeld(c, includeOrdinary, key) ==>
                  var e := c.models[key];
                  s.children[key] == if e.entry.Some? then e.entry.value
                                     else Child(e.name, e.status, e.metadata, None, None, None, None))
            && (key in s.children && s.children[key].parentKey.Some? ==>
                  ComesBackTo(c, s.children[key].parentKey.value, key))
  {
    CachedModelsAre(c, includeOrdinary, key);
    var s := RebuiltStore(c, includeOrdinary);
    if key in s.children && s.children[key].parentKey.Some? {
      assert Names(s, s.children[key].parentKey.value, key);
      ReattachesExactly(c, includeOrdinary, s.children[key].parentKey.value, key);
    }
  }

  /** A ConfigMap rebuilt from sound caches is one that every run could have reached. */
  lemma RebuiltKeepsInv(c: Cache, next: LockId, includeOrdinary: bool)
    requires Clean(c) && Sound(c, next) && next != NO_LOCK
    ensures Inv(World(RebuiltStore(c, includeOrdinary), next))
  {
    var order := ListParents(c.parents.Keys);
    RebuildsWhatTheCachesHold(c, includeOrdinary, order);
    assert Inv(World(LOST, next)) by { forall i, k ensures Lists(LOST, i, k) <==> Names(LOST, i, k) { } }
    RestoreKeepsInv(c, LOST, next, "", includeOrdinary, order);
  }

  lemma {:induction false} ListParents(ids: set<Identity>) returns (order: seq<Identity>)
    ensures Distinct(order) && Elements(order) == ids && forall id :: id in order ==> id in ids
    decreases ids
  {
    order := [];
    if ids != {} {
      var id :| id in ids;
      var rest := ListParents(ids - {id});
      order := rest + [id];
      assert Elements(order) == Elements(rest) + {id};
    }
  }

  /** A rebuilt child shows Failed, and will show its cached or earlier saved status. */
  lemma RebuiltEffective(c: Cache, includeOrdinary: bool, id: Identity, key: ModelKey)
    requires Clean(c) && ComesBackTo(c, id, key)
    ensures key in RebuiltStore(c, includeOrdinary).children
    ensures Effective(RebuiltStore(c, includeOrdinary), key) ==
              LastStatus(c, id, key)
  {
    ReattachesExactly(c, includeOrdinary, id, key);
  }

  /**
   In every run from a rebuilt ConfigMap, however its parent is repaired: whenever the parent is Ready,
   a child that stayed attached shows what ordinary writes gave it since, and without such writes
   its cached or earlier saved status.
   */
  lemma ReadyGivesBackCachedStatus(c: Cache, next: LockId, includeOrdinary: bool, run: Run, id: Identity,
                                   key: ModelKey, n: nat)
    requires Clean(c) && Sound(c, next) && next != NO_LOCK && ComesBackTo(c, id, key)
    requires run.Valid() && run.states[0] == World(RebuiltStore(c, includeOrdinary), next) && n < |run.states|
    requires AttachedThroughout(run, id, key, n) && OwnersPresentTheirRecord(run)
    requires id in run.states[n].store.parents && run.states[n].store.parents[id].status == Ready
    ensures forall i :: 0 <= i <= n ==> key in run.states[i].store.children
    ensures Intended(run, key, 0) == LastStatus(c, id, key)
    ensures run.states[n].store.children[key].status == Intended(run, key, n)
    ensures (forall i :: 0 <= i < n ==> !(run.ops[i].StatusWrite? && run.ops[i].key == key)) ==>
              run.states[n].store.children[key].status ==
                LastStatus(c, id, key)
  {
    RebuiltKeepsInv(c, next, includeOrdinary);
    RebuiltEffective(c, includeOrdinary, id, key);
    ReadyShowsIntended(run, id, key, n);
    if forall i :: 0 <= i < n ==> !(run.ops[i].StatusWrite? && run.ops[i].key == key) { UnwrittenIntent(run, key, n); }
  }

  /** The owner that will validate a rebuilt parent: the cached one, or a new one. */
  function Revalidating(s: Store, id: Identity, newLock: LockId): Outcome<Acquisition>
    requires id in s.parents
  {
    if s.parents[id].BlocksNewOperation() then Done(s, Acquisition(s.parents[id], false))
    else TryAcquireLock(s, id, s.parents[id], true, newLock)
  }

  lemma GivesBackSaved(s: Store, id: Identity, key: ModelKey, newLock: LockId)
    requires newLock != NO_LOCK && Lists(s, id, key) && Names(s, id, key) && s.children[key].status == ModelFailed
    requires var p := s.parents[id];
             && p.status != Ready && LockShape(p) && CanonicalPath(id, p.localPath)
             && key in p.saved && p.children[key] != ""
    ensures var owned := Revalidating(s, id, newLock);
            && owned.Done? && SetStatus(owned.store, id, owned.result.parent, Ready).Done?
            && key in SetStatus(owned.store, id, owned.result.parent, Ready).store.children
            && SetStatus(owned.store, id, owned.result.parent, Ready).store.children[key].status ==
               s.parents[id].saved[key]
  {
  }

  /** Nothing stands in the way: a rebuilt parent can be acquired and marked Ready, and gives the statuses back. */
  lemma RevalidationSucceeds(c: Cache, next: LockId, includeOrdinary: bool, id: Identity, key: ModelKey)
    requires Clean(c) && Sound(c, next) && next != NO_LOCK && ComesBackTo(c, id, key)
    ensures id in RebuiltStore(c, includeOrdinary).parents
    ensures var owned := Revalidating(RebuiltStore(c, includeOrdinary), id, next);
            && owned.Done? && SetStatus(owned.store, id, owned.result.parent, Ready).Done?
            && key in SetStatus(owned.store, id, owned.result.parent, Ready).store.children
            && SetStatus(owned.store, id, owned.result.parent, Ready).store.children[key].status ==
                 LastStatus(c, id, key)
  {
    ReattachesExactly(c, includeOrdinary, id, key);
    RebuiltKeepsInv(c, next, includeOrdinary);
    RebuiltIsSafe(c, includeOrdinary);
    GivesBackSaved(RebuiltStore(c, includeOrdinary), id, key, next);
  }

  // ---- the code ----

  method RestoreParentInto(data: Store, models: Models, cached: Parent, id: Identity, modelId: ModelKey)
    returns (result: Store, changed: bool)
    ensures result == RestoreParent(data, models, cached, id, modelId)
    ensures !changed ==> result == data
  {
    var stored := id in data.parents;
    var parent := if stored then data.parents[id] else cached;
    if stored && (!RecoveryOk(id, parent) || parent.BlocksNewOperation()) {
      return data, false;
    }
    var needed := CheckRecovery(data, models, cached, id, parent, modelId);
    if !needed {
      return data, false;
    }
    var children, saved, written := RecoverChildren(data, models, cached, id, parent);
    ghost var found := Found(data, models, cached, id, parent);
    SameMapIsEqual(children, RecoveredChildren(parent, stored, found));
    SameMapIsEqual(saved, RecoveredSaved(parent, stored, found));
    SameMapIsEqual(written, data.children + AsFailed(found));
    var restored := parent.(children := children, saved := saved);
    if restored.status != Updating {
      restored := restored.(status := Failed, lockId := NO_LOCK, lastCompleted := NO_LOCK);
    }
    result, changed := Store(data.parents[id := restored], written), true;
  }

  method CheckRecovery(data: Store, models: Models, cached: Parent, id: Identity, parent: Parent, modelId: ModelKey)
    returns (needed: bool)
    ensures needed == NeedsRecovery(data, models, cached, id, parent, modelId)
  {
    needed := id !in data.parents;
    var todo := parent.children.Keys;
    while todo != {}
      invariant todo <= parent.children.Keys
      invariant needed <==>
                  || id !in data.parents
                  || exists key :: && key in parent.children && key !in todo
                                   && Missing(data, models, cached, id, parent, modelId, key)
      decreases todo
    {
      var key :| key in todo;
      if key !in data.children && (modelId == "" || modelId == key) {
        if key in models && models[key].parentKey == Some(id) && key in cached.children
          && cached.children[key] == parent.children[key] {
          needed := true;
        }
      }
      todo := todo - {key};
    }
  }

  /** The saved status of one child after its visit. */
  function SavedStatusAfter(parent: Parent, stored: bool, found: Option<Child>, key: ModelKey): Option<ModelStatus> {
    if found.Some? && (key !in parent.saved || found.value.status != ModelFailed) then Some(found.value.status)
    else if key in parent.saved && (stored || found.Some?) then Some(parent.saved[key])
    else None
  }

  /** What the loop has made of one child. */
  ghost predicate Visited(parent: Parent, stored: bool, found: Models, key: ModelKey, children: map<ModelKey, Path>,
                          saved: map<ModelKey, ModelStatus>)
    requires key in parent.children
  {
    && Get(children, key) == (if stored || key in found then Some(parent.children[key]) else None)
    && Get(saved, key) == SavedStatusAfter(parent, stored, Get(found, key), key)
  }

  ghost predicate Untouched(parent: Parent, key: ModelKey, children: map<ModelKey, Path>,
                            saved: map<ModelKey, ModelStatus>) {
    Get(children, key) == Get(parent.children, key) && Get(saved, key) == Get(parent.saved, key)
  }

  /** The children and saved statuses when those in `todo` are still to be visited. */
  ghost predicate Underway(parent: Parent, stored: bool, found: Models, todo: set<ModelKey>,
                           children: map<ModelKey, Path>, saved: map<ModelKey, ModelStatus>) {
    && (forall key :: key in parent.children && key !in todo ==> Visited(parent, stored, found, key, children, saved))
    && (forall key :: key in todo || key !in parent.children ==> Untouched(parent, key, children, saved))
  }

  /** Visiting one child touches no other. */
  lemma VisitOne(parent: Parent, stored: bool, found: Models, todo: set<ModelKey>, key: ModelKey,
                 children: map<ModelKey, Path>, saved: map<ModelKey, ModelStatus>, children': map<ModelKey, Path>,
                   saved': map<ModelKey, ModelStatus>)
    requires key in todo && todo <= parent.children.Keys && Underway(parent, stored, found, todo, children, saved)
    requires forall k :: k != key ==> Get(children', k) == Get(children, k) && Get(saved', k) == Get(saved, k)
    requires Visited(parent, stored, found, key, children', saved')
    ensures Underway(parent, stored, found, todo - {key}, children', saved')
  {
    forall k | k in parent.children && k !in todo - {key} ensures Visited(parent, stored, found, k, children', saved') {
      assert k != key ==> Visited(parent, stored, found, k, children, saved) && Get(children', k) == Get(children, k);
    }
    forall k | k in todo - {key} || k !in parent.children ensures Untouched(parent, k, children', saved') {
      assert Untouched(parent, k, children, saved) && Get(children', k) == Get(children, k);
    }
  }

  lemma AllVisited(parent: Parent, stored: bool, found: Models, children: map<ModelKey, Path>,
                   saved: map<ModelKey, ModelStatus>)
    requires found.Keys <= parent.children.Keys && Underway(parent, stored, found, {}, children, saved)
    ensures SameMap(children, RecoveredChildren(parent, stored, found))
    ensures SameMap(saved, RecoveredSaved(parent, stored, found))
  {
    forall key ensures Get(children, key) == Get(RecoveredChildren(parent, stored, found), key)
                    && Get(saved, key) == Get(RecoveredSaved(parent, stored, found), key) {
      assert if key in parent.children then Visited(parent, stored, found, key, children, saved)
             else Untouched(parent, key, children, saved);
    }
  }

  /** The record written for one child, if it has been visited and found. */
  function WrittenFor(data: Store, found: Models, todo: set<ModelKey>, key: ModelKey): Option<Child> {
    if key in found && key !in todo then Some(found[key].(status := ModelFailed)) else Get(data.children, key)
  }

  ghost predicate WrittenSoFar(data: Store, found: Models, todo: set<ModelKey>, written: Models) {
    forall key :: Get(written, key) == WrittenFor(data, found, todo, key)
  }

  lemma WriteOne(data: Store, found: Models, todo: set<ModelKey>, key: ModelKey, written: Models)
    requires key in todo && WrittenSoFar(data, found, todo, written)
    ensures WrittenSoFar(data, found, todo - {key}, if key in found
                         then written[key := found[key].(status := ModelFailed)] else written)
  {
    var written' := if key in found then written[key := found[key].(status := ModelFailed)] else written;
    forall k ensures Get(written', k) == WrittenFor(data, found, todo - {key}, k) {
      assert Get(written, k) == WrittenFor(data, found, todo, k);
    }
  }

  lemma AllWritten(data: Store, found: Models, written: Models)
    requires WrittenSoFar(data, found, {}, written)
    ensures SameMap(written, data.children + AsFailed(found))
  {
    forall key ensures Get(written, key) == Get(data.children + AsFailed(found), key) {
      assert Get(written, key) == WrittenFor(data, found, {}, key);
    }
  }

  /** The loop that writes the recovered children and keeps the statuses they had. */
  method RecoverChildren(data: Store, models: Models, cached: Parent, id: Identity, parent: Parent)
    returns (children: map<ModelKey, Path>, saved: map<ModelKey, ModelStatus>, written: Models)
    ensures var found, stored := Found(data, models, cached, id, parent), id in data.parents;
            && SameMap(children, RecoveredChildren(parent, stored, found))
               && SameMap(saved, RecoveredSaved(parent, stored, found))
            && SameMap(written, data.children + AsFailed(found))
  {
    children, saved, written := parent.children, parent.saved, data.children;
    ghost var found, stored := Found(data, models, cached, id, parent), id in data.parents;
    var todo := parent.children.Keys;
    while todo != {}
      invariant todo <= parent.children.Keys
      invariant Underway(parent, stored, found, todo, children, saved)
      invariant WrittenSoFar(data, found, todo, written)
      decreases todo
    {
      var key :| key in todo;
      assert Untouched(parent, key, children, saved);
      ghost var children', saved' := children, saved;
      WriteOne(data, found, todo, key, written);
      var source := Source(data, models, cached, parent, key);
      if key !in models || source.None? || source.value.parentKey != Some(id) || source.value.status == ModelDeleted {
        if id !in data.parents {
          children, saved := children - {key}, saved - {key};
        }
      } else {
        if key !in saved || source.value.status != ModelFailed {
          saved := saved[key := source.value.status];
        }
        written := written[key := source.value.(status := ModelFailed)];
      }
      VisitOne(parent, stored, found, todo, key, children', saved', children, saved);
      todo := todo - {key};
    }
    AllVisited(parent, stored, found, children, saved);
    AllWritten(data, found, written);
  }

  /** cachedConfigMapEntries, and the loop that leaves ordinary models out unless they are asked for. */
  method CachedEntries(c: Cache, includeOrdinary: bool) returns (models: Models)
    ensures forall key :: Get(models, key) == CachedRecord(c, includeOrdinary, key)
  {
    models := map[];
    var todo := c.models.Keys;
    while todo != {}
      invariant todo <= c.models.Keys
      invariant forall key :: Get(models, key) == if key in todo then None else CachedRecord(c, true, key)
      decreases todo
    {
      var key :| key in todo;
      var e := c.models[key];
      if e.status != ModelDeleted && !IsBlocked(c, key, e.uid) {
        if e.entry.Some? {
          models := models[key := e.entry.value];
        } else if e.name != "" {
          models := models[key := OrdinaryEntry(e)];
        }
      }
      todo := todo - {key};
    }
    if !includeOrdinary {
      todo := models.Keys;
      while todo != {}
        invariant todo <= models.Keys
        invariant forall key :: Get(models, key) == CachedRecord(c, key in todo, key)
        decreases todo
      {
        var key :| key in todo;
        if key !in c.models || c.models[key].entry.None? {
          models := models - {key};
        }
        todo := todo - {key};
      }
    }
  }

  /** restoreCachedConfigMapEntries: the groups in any order, then the records without a parent. */
  method RestoreEntries(c: Cache, data: Store, modelId: ModelKey, includeOrdinary: bool) returns (result: Outcome<()>)
    ensures exists order :: Listing(c, order) && result == Restore(c, data, modelId, includeOrdinary, order)
  {
    var models := CachedEntries(c, includeOrdinary);
    forall key ensures Get(models, key) == Get(CachedModels(c, includeOrdinary), key) {
      CachedModelsAre(c, includeOrdinary, key);
    }
    SameMapIsEqual(models, CachedModels(c, includeOrdinary));
    var current := data;
    ghost var order: seq<Identity> := [];
    var todo := c.parents.Keys;
    while todo != {}
      invariant todo <= c.parents.Keys && Distinct(order) && Elements(order) == c.parents.Keys - todo
      invariant forall id :: id in order ==> id in c.parents && id !in todo
      invariant current == RestoreParents(data, models, c.parents, order, modelId)
      decreases todo
    {
      var id :| id in todo;
      if RecoveryOk(id, c.parents[id]) && Selected(models, id, modelId) {
        var changed;
        current, changed := RestoreParentInto(current, models, c.parents[id], id, modelId);
      }
      assert (order + [id])[..|order|] == order && Elements(order + [id]) == Elements(order) + {id};
      order := order + [id];
      todo := todo - {id};
    }
    assert Listing(c, order);
    current := RestorePlainInto(current, models, modelId);
    if modelId != "" && modelId !in current.children && modelId in models && models[modelId].parentKey.Some? {
      return Rejected;
    }
    result := Done(current, ());
  }

  predicate ComesBack(s: Store, models: Models, modelId: ModelKey, key: ModelKey)
    requires key in models
  {
    key !in s.children && (modelId == "" || modelId == key) && models[key].parentKey.None?
      && models[key].status != ModelDeleted
  }

  method RestorePlainInto(data: Store, models: Models, modelId: ModelKey) returns (result: Store)
    ensures result == RestorePlain(data, models, modelId)
  {
    var children := data.children;
    var todo := models.Keys;
    while todo != {}
      invariant todo <= models.Keys
      invariant forall key :: Get(children, key) ==
                  if key in models && key !in todo && ComesBack(data, models, modelId, key) then Some(models[key])
                  else Get(data.children, key)
      decreases todo
    {
      var key :| key in todo;
      if key !in data.children && (modelId == "" || modelId == key) {
        if models[key].parentKey.None? && models[key].status != ModelDeleted {
          children := children[key := models[key]];
        }
      }
      todo := todo - {key};
    }
    SameMapIsEqual(children, RestorePlain(data, models, modelId).children);
    result := data.(children := children);
  }
}
