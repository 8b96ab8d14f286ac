/**
 One agent process: the ConfigMap it shares with others and the caches of its own, step by step
 (mutateConfigMapWithModelUIDLocked, DeleteModelFromConfigMap and their callers in
 configmap_reconciler.go, hf_artifact_repository.go, hf_artifact_pending_download.go and
 hf_artifact_pending_deletion.go).

 A mutation works on the ConfigMap it reads, rebuilt or completed from the caches where records are
 lost; whether its UID is blocked or proven current follows from the caches at that moment; what it
 commits goes back into the caches. Other processes change the ConfigMap in between, and it may be
 lost at any time.
 */
module HfAgent {
  import opened HfTypes
  import opened HfRepository
  import opened HfRuns
  import opened HfCache
  import opened HfRecovery

  /** `store` is None while the ConfigMap does not exist. */
  datatype Agent = Agent(store: Option<Store>, next: LockId, cache: Cache)

  function Contents(a: Agent): Store {
    if a.store.Some? then a.store.value else LOST
  }

  /** The orders in which the loops of one mutation happen to run. */
  datatype Ways = Ways(groups: seq<Identity>, group: seq<Identity>, visit: Visit)

  datatype Event =
    | Mutates(op: Op, uid: Uid, current: bool, ways: Ways)
    | Deletes(key: ModelKey, uid: Uid, deleting: bool, ways: Ways)
    | Recreates(modelId: ModelKey, includeOrdinary: bool, ways: Ways)
    | Reads(visit: Visit)
    | Caches(key: ModelKey, name: string, uid: Uid, status: Option<ModelStatus>, metadata: Option<string>)
    | Adopts(key: ModelKey, receipt: PendingDeletion, current: bool)
    | Elsewhere(store: Store)
    | Lost

  // ---- what a mutation takes from the caches ----

  /** The UID a mutation presents: its task's, or that of the receipt it works on. */
  function CarriedUid(op: Op, uid: Uid): Uid {
    match op
    case AddReference(_, _, _, u, _, _) => u
    case RemoveReference(_, _, _, u, _, _, _) => u
    case Remember(_, _, _, u, _, _) => u
    case BeginDownloadDeletion(_, u, _, _, _) => u
    case Claim(_, u, _, _, _) => u
    case OwnDeletion(_, receipt, _, _) => receipt.uid
    case FinishDeletion(_, receipt, _) => receipt.uid
    case _ => uid
  }

  /** `current` is the lister's answer when asked whether the UID is the model's current one. */
  function Flagged(c: Cache, s: Store, op: Op, uid: Uid, current: bool): Op
    requires CarriesUid(op)
  {
    var carried := CarriedUid(op, uid);
    var blocked := IsBlocked(c, op.key, carried);
    var proven := current && !IsInvalidated(c, op.key, carried);
    var lost := SharedStateLost(s, op.key, if op.key in c.models then c.models[op.key].entry else None);
    match op
    case AddReference(id, expected, key, u, path, _) => AddReference(id, expected, key, u, path, blocked)
    case RemoveReference(id, expected, key, u, path, pending, _) =>
      RemoveReference(id, expected, key, u, path, pending, blocked)
    case Remember(id, parentPath, key, u, childPath, _) => Remember(id, parentPath, key, u, childPath, blocked)
    case BeginDownloadDeletion(key, u, intent, _, _) => BeginDownloadDeletion(key, u, intent, blocked, proven)
    case Claim(key, u, receipt, parentAbsent, _) => Claim(key, u, receipt, parentAbsent, proven)
    case OwnDeletion(key, receipt, parentAbsent, _) => OwnDeletion(key, receipt, parentAbsent, blocked)
    case FinishDeletion(key, receipt, _) => FinishDeletion(key, receipt, blocked)
    case StatusWrite(key, name, model, _, _) => StatusWrite(key, name, model, blocked, lost)
    case MetadataWrite(key, name, config, _, _) => MetadataWrite(key, name, config, blocked, lost)
    case ProgressWrite(key, name, progress, _, _) => ProgressWrite(key, name, progress, blocked, lost)
  }

  function Issued(c: Cache, s: Store, op: Op, uid: Uid, current: bool): Op {
    if CarriesUid(op) then Flagged(c, s, op, uid, current) else op
  }

  /** Only status, metadata, progress and intent writes and the final removal name their model to the cache. */
  function CommitKey(op: Op): ModelKey {
    match op
    case Remember(_, _, key, _, _, _) => key
    case StatusWrite(key, _, _, _, _) => key
    case MetadataWrite(key, _, _, _, _) => key
    case ProgressWrite(key, _, _, _, _) => key
    case Remove(key, _) => key
    case _ => ""
  }

  function CommitUid(op: Op, uid: Uid): Uid {
    if CommitKey(op) == "" then "" else if op.Remove? then op.uid else CarriedUid(op, uid)
  }

  /** An error return. A Ready write withheld from an unvalidated parent fails only after the commit. */
  predicate Fails(s: Store, op: Op, newLock: LockId) {
    match op
    case Acquire(id, expected, forRepair) => TryAcquireLock(s, id, expected, forRepair, newLock).Rejected?
    case Release(id, expected, status) => SetStatus(s, id, expected, status).Rejected?
    case FailChildren(id, expected) => MarkChildrenFailed(s, id, expected).Rejected?
    case AddReference(id, expected, key, uid, path, blocked) =>
      AddModelReference(s, id, expected, key, uid, path, blocked).Rejected?
    case RemoveReference(id, expected, key, uid, path, pending, blocked) =>
      RemoveModelReference(s, id, expected, key, uid, path, pending, blocked, newLock).Rejected?
    case DeleteParent(id, expected) => DeleteIfUnreferenced(s, id, expected).Rejected?
    case Remember(id, parentPath, key, uid, childPath, blocked) =>
      RememberDownload(s, id, parentPath, key, uid, childPath, blocked).Rejected?
    case BeginDownloadDeletion(key, uid, intent, blocked, proven) =>
      BeginPendingDownloadDeletion(s, key, uid, intent, blocked, proven).Rejected?
    case Claim(key, uid, receipt, parentAbsent, proven) =>
      ClaimPendingDeletion(s, key, uid, receipt, parentAbsent, proven).Rejected?
    case OwnDeletion(key, receipt, parentAbsent, blocked) =>
      DeletionParent(s, key, receipt, parentAbsent, blocked, newLock).Rejected?
    case FinishDeletion(key, receipt, blocked) => FinishPendingDeletion(s, key, receipt, blocked).Rejected?
    case StatusWrite(key, name, model, blocked, conflict) => !blocked && !ChildMutationAllowed(s, key, conflict)
    case MetadataWrite(key, name, config, blocked, conflict) =>
      WriteMetadata(s, key, name, config, blocked, conflict).Rejected?
    case ProgressWrite(key, name, progress, blocked, conflict) =>
      WriteProgress(s, key, name, progress, blocked, conflict).Rejected?
    case Remove(key, uid) => RemoveModel(s, key, uid).Rejected?
  }

  /** What a mutation for `key` works on: a lost ConfigMap is rebuilt, a lost record is restored with its group. */
  function Prepared(c: Cache, s: Option<Store>, key: ModelKey, groups: seq<Identity>, group: seq<Identity>): Outcome<()>
    requires forall id :: id in groups || id in group ==> id in c.parents
  {
    var base := if s.Some? then Done(s.value, ()) else Restore(c, LOST, "", false, groups);
    if base.Done? && key != "" && key !in base.store.children then Restore(c, base.store, key, false, group) else base
  }

  /** deletionParent forgets a cached parent whose deletion it finds completed. */
  function Forgotten(c: Cache, s: Store, op: Op): Cache {
    if op.OwnDeletion? && op.receipt.identity !in s.parents && op.parentAbsent && op.receipt.parentLock != NO_LOCK then
      var id := op.receipt.identity;
      if id in c.parents && RecoveryOk(id, c.parents[id]) && c.parents[id].localPath == op.receipt.parentPath
         && c.parents[id].lockId == op.receipt.parentLock && c.parents[id].children == map[]
      then c.(parents := c.parents - {id})
      else c
    else c
  }

  // ---- the steps ----

  /** `after` is written unless nothing changed, and cached. */
  ghost predicate Commits(a: Agent, c: Cache, after: Store, key: ModelKey, uid: Uid, v: Visit, a': Agent) {
    && Covers(v, Contents(a), after)
    && a' == Agent(if after == Contents(a) then a.store
                   else Some(after), a.next + 1, CacheCommitted(c, Contents(a), after, key, uid, v))
  }

  ghost predicate Ordered(c: Cache, w: Ways) {
    Listing(c, w.groups) && Listing(c, w.group)
  }

  /** The mutation of a prepared store. */
  ghost predicate MutatesPrepared(a: Agent, s: Store, op: Op, uid: Uid, current: bool, v: Visit, a': Agent) {
    var issued := Issued(a.cache, s, op, uid, current);
    if Fails(s, issued, a.next) then a' == a
    else Commits(a, Forgotten(a.cache, s, issued), ApplyOp(s, issued, a.next), CommitKey(op), CommitUid(op, uid), v, a')
  }

  /** mutateConfigMapWithModelUIDLocked: prepare, mutate, write, cache; an error leaves everything alone. */
  ghost predicate MutationStep(a: Agent, op: Op, uid: Uid, current: bool, w: Ways, a': Agent) {
    Ordered(a.cache, w) &&
    var base := Prepared(a.cache, a.store, CommitKey(op), w.groups, w.group);
    if base.Rejected? then a' == a
    else MutatesPrepared(a, base.store, op, uid, current, w.visit, a')
  }

  /** A deletion under another UID than the cached owner's is refused if that UID is fenced or the model shared. */
  predicate RefusesDeletion(c: Cache, key: ModelKey, uid: Uid) {
    && key in c.models && c.models[key].uid != "" && uid != "" && c.models[key].uid != uid
    && (IsInvalidated(c, key, uid) || (c.models[key].entry.Some? && !IsOrdinary(c.models[key].entry.value)))
  }

  /** The caches after the first half of a deletion. */
  function Fenced(c: Cache, key: ModelKey, uid: Uid, deleting: bool): Cache {
    if deleting then Invalidate(c, key, uid) else Evict(c, key)
  }

  /** DeleteModelFromConfigMap: invalidate or evict first, then remove the record. */
  ghost predicate DeletionStep(a: Agent, key: ModelKey, uid: Uid, deleting: bool, w: Ways, a': Agent) {
    if RefusesDeletion(a.cache, key, uid) then a' == a
    else
      MutationStep(a.(cache := Fenced(a.cache, key, uid, deleting)), Remove(key, uid), uid, false, w, a')
  }

  ghost predicate RecreatesPrepared(a: Agent, s: Store, modelId: ModelKey, includeOrdinary: bool, w: Ways, a': Agent)
    requires Ordered(a.cache, w)
  {
    var o := Restore(a.cache, s, modelId, includeOrdinary, w.group);
    if o.Rejected? then a' == a else Commits(a, a.cache, o.store, "", "", w.visit, a')
  }

  /** recreateConfigMap, restoreModelInConfigMap and the read before a cleanup. */
  ghost predicate RecreationStep(a: Agent, modelId: ModelKey, includeOrdinary: bool, w: Ways, a': Agent) {
    Ordered(a.cache, w) &&
    var base := Prepared(a.cache, a.store, "", w.groups, w.group);
    if base.Rejected? then a' == a
    else RecreatesPrepared(a, base.store, modelId, includeOrdinary, w, a')
  }

  ghost predicate Does(a: Agent, e: Event, a': Agent) {
    match e
    case Mutates(op, uid, current, w) => MutationStep(a, op, uid, current, w, a')
    case Deletes(key, uid, deleting, w) => DeletionStep(a, key, uid, deleting, w, a')
    case Recreates(modelId, includeOrdinary, w) => RecreationStep(a, modelId, includeOrdinary, w, a')
    case Reads(v) => if a.store.None? then a' == a else Commits(a, a.cache, a.store.value, "", "", v, a')
    case Caches(key, name, uid, status, metadata) =>
      a' == a.(cache := CacheOrdinary(a.cache, key, name, uid, status, metadata))
    case Adopts(key, receipt, current) =>
      if a.store.Some? && HoldsReceipt(a.store.value, key, receipt) && current && receipt.uid != ""
      then a' == a.(cache := Adopt(a.cache, key, a.store.value.children[key], receipt.uid))
      else a' == a
    case Elsewhere(store) => a' == a.(store := Some(store), next := a'.next) && a'.next >= a.next
    case Lost => a' == a.(store := None)
  }

  // ---- what every run of the agent keeps ----

  /** No ConfigMap has an empty key, and final removals are `Deletes`. */
  predicate Keyed(e: Event) {
    match e
    case Mutates(op, _, _, _) => !op.Remove? && (CarriesUid(op) ==> op.key != "")
    case Deletes(key, _, _, _) => key != ""
    case Caches(key, _, _, _, _) => key != ""
    case Elsewhere(store) => "" !in store.children
    case _ => true
  }

  /** What callers owe (`HfRuns.Legal`), and other processes that keep the shared records well-formed. */
  ghost predicate Dutiful(a: Agent, e: Event, a': Agent) {
    match e
    case Mutates(op, _, _, w) =>
      Ordered(a.cache, w) &&
      var base := Prepared(a.cache, a.store, CommitKey(op), w.groups, w.group);
      base.Done? ==> Legal(World(base.store, a.next), op)
    case Elsewhere(store) => Inv(World(store, a'.next))
    case _ => true
  }

  ghost predicate Fine(a: Agent) {
    Clean(a.cache) && Sound(a.cache, a.next) && Inv(World(Contents(a), a.next)) && "" !in Contents(a).children
  }

  datatype AgentRun = AgentRun(states: seq<Agent>, events: seq<Event>)
  {
    ghost predicate Valid() {
      |states| == |events| + 1 && forall i :: Linked(i)
    }

    ghost predicate Linked(i: int)
      requires |states| == |events| + 1
    {
      0 <= i < |events| ==> Does(states[i], events[i], states[i + 1]) && Keyed(events[i])
    }

    ghost predicate DutifulUntil(n: nat)
      requires |states| == |events| + 1 && n <= |events|
    {
      forall i :: 0 <= i < n ==> Dutiful(states[i], events[i], states[i + 1])
    }
  }

  lemma LostIsFine(next: LockId)
    requires next != NO_LOCK
    ensures Inv(World(LOST, next))
  {
    forall i, k ensures Lists(LOST, i, k) <==> Names(LOST, i, k) { }
  }

  /** An agent starts with empty caches, whatever ConfigMap it finds. */
  lemma StartIsFine(store: Option<Store>, next: LockId)
    requires next != NO_LOCK && (store.Some? ==> Inv(World(store.value, next)) && "" !in store.value.children)
    ensures Fine(Agent(store, next, Cache(map[], map[], {}, map[])))
  {
    LostIsFine(next);
  }

  lemma RestorePrepares(c: Cache, s: Store, next: LockId, modelId: ModelKey, includeOrdinary: bool,
                        order: seq<Identity>)
    requires Inv(World(s, next)) && "" !in s.children && Sound(c, next) && Listing(c, order)
    ensures var o := Restore(c, s, modelId, includeOrdinary, order);
            o.Done? ==>
              && Inv(World(o.store, next)) && "" !in o.store.children
              && RestoredFrom(c, s.children, o.store.children)
  {
    RestoreKeepsInv(c, s, next, modelId, includeOrdinary, order);
    RestoresFromCache(c, s, modelId, includeOrdinary, order);
  }

  lemma PreparedIsFine(a: Agent, key: ModelKey, w: Ways)
    requires Fine(a) && Ordered(a.cache, w)
    ensures var base := Prepared(a.cache, a.store, key, w.groups, w.group);
            base.Done? ==>
              Inv(World(base.store, a.next)) && "" !in base.store.children
                && RestoredFrom(a.cache, Contents(a).children, base.store.children)
  {
    if a.store.None? { RestorePrepares(a.cache, LOST, a.next, "", false, w.groups); }
    var base := if a.store.Some? then Done(a.store.value, ()) else Restore(a.cache, LOST, "", false, w.groups);
    if base.Done? && key != "" && key !in base.store.children {
      RestorePrepares(a.cache, base.store, a.next, key, false, w.group);
    }
  }

  lemma NoEmptyKey(s: Store, op: Op, newLock: LockId)
    requires "" !in s.children && (CarriesUid(op) || op.Remove? ==> op.key != "")
    ensures "" !in ApplyOp(s, op, newLock).children
  {
  }

  lemma FlagsDoNotMatter(c: Cache, s: Store, op: Op, uid: Uid, current: bool, w: World)
    ensures Legal(w, Issued(c, s, op, uid, current)) <==> Legal(w, op)
    ensures CarriesUid(Issued(c, s, op, uid, current)) <==> CarriesUid(op)
    ensures CarriesUid(op) ==> Issued(c, s, op, uid, current).key == op.key
    ensures op.Remove? <==> Issued(c, s, op, uid, current).Remove?
  {
  }

  lemma ForgottenKeeps(c: Cache, s: Store, op: Op, next: LockId)
    requires Clean(c) && Sound(c, next)
    ensures Clean(Forgotten(c, s, op)) && Sound(Forgotten(c, s, op), next)
  {
  }

  /** What was committed is reachable, so the caches take it: the premise of `HfCache.Possible` holds in every run. */
  lemma CommitKeepsFine(a: Agent, c: Cache, after: Store, key: ModelKey, uid: Uid, v: Visit, a': Agent)
    requires Clean(c) && Sound(c, a.next) && Inv(World(after, a.next + 1)) && "" !in after.children
    requires Commits(a, c, after, key, uid, v, a')
    requires Inv(World(Contents(a), a.next)) && "" !in Contents(a).children
    ensures Fine(a')
  {
    CacheStepKeepsClean(c, Committed(Contents(a), after, key, uid, v));
    CommittedKeepsSound(c, a.next + 1, Contents(a), after, key, uid, v);
    if after == Contents(a) { assert Contents(a') == Contents(a); }
  }

  lemma IssuedKeepsInv(c: Cache, s: Store, next: LockId, op: Op, uid: Uid, current: bool)
    requires Inv(World(s, next)) && "" !in s.children && Legal(World(s, next), op)
    requires CarriesUid(op) || op.Remove? ==> op.key != ""
    ensures var t := ApplyOp(s, Issued(c, s, op, uid, current), next); Inv(World(t, next + 1)) && "" !in t.children
  {
    FlagsDoNotMatter(c, s, op, uid, current, World(s, next));
    StepKeepsInv(World(s, next), Issued(c, s, op, uid, current));
    NoEmptyKey(s, Issued(c, s, op, uid, current), next);
  }

  lemma IssuedCommitKeepsFine(a: Agent, s: Store, issued: Op, after: Store, key: ModelKey, uid: Uid,
                              v: Visit, a': Agent)
    requires Fine(a) && Inv(World(after, a.next + 1)) && "" !in after.children
    requires Commits(a, Forgotten(a.cache, s, issued), after, key, uid, v, a')
    ensures Fine(a')
  {
    ForgottenKeeps(a.cache, s, issued, a.next);
    CommitKeepsFine(a, Forgotten(a.cache, s, issued), after, key, uid, v, a');
  }

  lemma PreparedMutationKeepsFine(a: Agent, s: Store, op: Op, uid: Uid, current: bool, v: Visit, a': Agent)
    requires Fine(a) && Inv(World(s, a.next)) && "" !in s.children
    requires Legal(World(s, a.next), op) && (CarriesUid(op) || op.Remove? ==> op.key != "")
    requires MutatesPrepared(a, s, op, uid, current, v, a')
    ensures Fine(a')
  {
    var issued := Issued(a.cache, s, op, uid, current);
    if !Fails(s, issued, a.next) {
      IssuedKeepsInv(a.cache, s, a.next, op, uid, current);
      IssuedCommitKeepsFine(a, s, issued, ApplyOp(s, issued, a.next), CommitKey(op), CommitUid(op, uid), v, a');
    }
  }

  lemma MutationKeepsFine(a: Agent, op: Op, uid: Uid, current: bool, w: Ways, a': Agent)
    requires Fine(a) && MutationStep(a, op, uid, current, w, a') && (CarriesUid(op) || op.Remove? ==> op.key != "")
    requires var base := Prepared(a.cache, a.store, CommitKey(op), w.groups, w.group); base.Done? ==>
               Legal(World(base.store, a.next), op)
    ensures Fine(a')
  {
    var base := Prepared(a.cache, a.store, CommitKey(op), w.groups, w.group);
    PreparedIsFine(a, CommitKey(op), w);
    if base.Done? { PreparedMutationKeepsFine(a, base.store, op, uid, current, w.visit, a'); }
  }

  lemma FencedKeeps(c: Cache, next: LockId, key: ModelKey, uid: Uid, deleting: bool)
    requires Clean(c) && Sound(c, next)
    ensures Clean(Fenced(c, key, uid, deleting)) && Sound(Fenced(c, key, uid, deleting), next)
  {
    EvictKeepsClean(c, key);
    EvictKeepsSound(c, next, key);
  }

  lemma SwapCache(a: Agent, c: Cache)
    requires Fine(a) && Clean(c) && Sound(c, a.next)
    ensures Fine(a.(cache := c))
  {
    assert Contents(a.(cache := c)) == Contents(a);
  }

  lemma DeletionKeepsFine(a: Agent, key: ModelKey, uid: Uid, deleting: bool, w: Ways, a': Agent)
    requires Fine(a) && key != "" && DeletionStep(a, key, uid, deleting, w, a')
    ensures Fine(a')
  {
    if !RefusesDeletion(a.cache, key, uid) {
      FencedKeeps(a.cache, a.next, key, uid, deleting);
      SwapCache(a, Fenced(a.cache, key, uid, deleting));
      MutationKeepsFine(a.(cache := Fenced(a.cache, key, uid, deleting)), Remove(key, uid), uid, false, w, a');
    }
  }

  lemma LaterIsFine(s: Store, next: LockId)
    requires Inv(World(s, next))
    ensures Inv(World(s, next + 1))
  {
  }

  lemma RewriteKeepsFine(a: Agent, s: Store, v: Visit, a': Agent)
    requires Fine(a) && Inv(World(s, a.next)) && "" !in s.children && Commits(a, a.cache, s, "", "", v, a')
    ensures Fine(a')
  {
    LaterIsFine(s, a.next);
    CommitKeepsFine(a, a.cache, s, "", "", v, a');
  }

  lemma PreparedRecreationKeepsFine(a: Agent, s: Store, modelId: ModelKey, includeOrdinary: bool, w: Ways, a': Agent)
    requires Fine(a) && Inv(World(s, a.next)) && "" !in s.children && Ordered(a.cache, w)
    requires RecreatesPrepared(a, s, modelId, includeOrdinary, w, a')
    ensures Fine(a')
  {
    var o := Restore(a.cache, s, modelId, includeOrdinary, w.group);
    if o.Done? {
      RestorePrepares(a.cache, s, a.next, modelId, includeOrdinary, w.group);
      RewriteKeepsFine(a, o.store, w.visit, a');
    }
  }

  lemma RecreationKeepsFine(a: Agent, modelId: ModelKey, includeOrdinary: bool, w: Ways, a': Agent)
    requires Fine(a) && RecreationStep(a, modelId, includeOrdinary, w, a')
    ensures Fine(a')
  {
    var base := Prepared(a.cache, a.store, "", w.groups, w.group);
    PreparedIsFine(a, "", w);
    if base.Done? { PreparedRecreationKeepsFine(a, base.store, modelId, includeOrdinary, w, a'); }
  }

  lemma CachingKeepsFine(a: Agent, e: Event, a': Agent)
    requires Fine(a) && (e.Caches? || e.Adopts?) && Does(a, e, a') && Keyed(e)
    ensures Fine(a')
  {
    if e.Caches? {
      CacheStepKeepsClean(a.cache, Ordinary(e.key, e.name, e.uid, e.status, e.metadata));
    } else if a' != a {
      CacheStepKeepsClean(a.cache, Adopted(e.key, a.store.value.children[e.key], e.receipt.uid));
    }
  }

  lemma StepKeepsFine(a: Agent, e: Event, a': Agent)
    requires Fine(a) && Does(a, e, a') && Keyed(e) && Dutiful(a, e, a')
    ensures Fine(a')
  {
    match e
    case Mutates(op, uid, current, w) => MutationKeepsFine(a, op, uid, current, w, a');
    case Deletes(key, uid, deleting, w) => DeletionKeepsFine(a, key, uid, deleting, w, a');
    case Recreates(modelId, includeOrdinary, w) => RecreationKeepsFine(a, modelId, includeOrdinary, w, a');
    case Reads(v) => if a.store.Some? { CommitKeepsFine(a, a.cache, a.store.value, "", "", v, a'); }
    case Caches(_, _, _, _, _) => CachingKeepsFine(a, e, a');
    case Adopts(_, _, _) => CachingKeepsFine(a, e, a');
    case Elsewhere(_) =>
    case Lost => LostIsFine(a.next);
  }

  /**
   In every run of an agent, with losses, recoveries and other processes in between, as long as callers
   do their duty: references stay two-sided, roles exclusive and locks well-formed in the ConfigMap, and
   an evicted model is in no cache.
   */
  lemma {:induction false} AgentRunKeepsFine(run: AgentRun, n: nat)
    requires run.Valid() && Fine(run.states[0]) && n < |run.states| && run.DutifulUntil(n)
    ensures Fine(run.states[n])
  {
    if n > 0 {
      AgentRunKeepsFine(run, n - 1);
      assert run.Linked(n - 1);
      StepKeepsFine(run.states[n - 1], run.events[n - 1], run.states[n]);
    }
  }

  /** So whenever the ConfigMap is lost in such a run, what the caches rebuild is well-formed again. */
  lemma RebuiltInEveryRun(run: AgentRun, n: nat, includeOrdinary: bool)
    requires run.Valid() && Fine(run.states[0]) && n < |run.states| && run.DutifulUntil(n)
    ensures Inv(World(RebuiltStore(run.states[n].cache, includeOrdinary), run.states[n].next))
  {
    AgentRunKeepsFine(run, n);
    RebuiltKeepsInv(run.states[n].cache, run.states[n].next, includeOrdinary);
  }

  /**
   One record lost to another process, at any point of such a run: the next mutation of that model works
   on a well-formed ConfigMap again if and only if the caches hold both sides of its reference and nobody
   owns the parent.
   */
  lemma LostRecordIsPrepared(run: AgentRun, n: nat, id: Identity, key: ModelKey, w: Ways)
    requires run.Valid() && Fine(run.states[0]) && n < |run.states| && run.DutifulUntil(n)
    requires run.states[n].store.Some? && Names(run.states[n].store.value, id, key) && key != ""
    requires Ordered(run.states[n].cache, w)
    ensures var a := run.states[n];
            var base := Prepared(a.cache, Some(Without(a.store.value, key)), key, w.groups, w.group);
            && Lists(a.store.value, id, key)
            && (base.Done? && Inv(World(base.store, a.next)) <==>
                  HeldByCaches(a.cache, a.store.value.parents[id], id, key))
  {
    AgentRunKeepsFine(run, n);
    LostRecordComesBackIff(run.states[n].cache, run.states[n].store.value, run.states[n].next, id, key, w.group);
  }

  // ---- no empty key anywhere, whatever callers and other processes do ----

  predicate NoBlank(a: Agent) {
    "" !in a.cache.models && "" !in Contents(a).children
  }

  lemma RestoreAddsNoBlank(c: Cache, s: Store, modelId: ModelKey, includeOrdinary: bool, order: seq<Identity>)
    requires "" !in s.children && "" !in c.models && Listing(c, order)
    ensures var o := Restore(c, s, modelId, includeOrdinary, order);
            o.Done? ==> "" !in o.store.children && RestoredFrom(c, s.children, o.store.children)
  {
    RestoresFromCache(c, s, modelId, includeOrdinary, order);
  }

  lemma PreparedIsRestored(a: Agent, key: ModelKey, w: Ways)
    requires NoBlank(a) && Ordered(a.cache, w)
    ensures var base := Prepared(a.cache, a.store, key, w.groups, w.group);
            base.Done? ==>
              && "" !in base.store.children
              && RestoredFrom(a.cache, Contents(a).children, base.store.children)
  {
    if a.store.None? { RestoreAddsNoBlank(a.cache, LOST, "", false, w.groups); }
    var base := if a.store.Some? then Done(a.store.value, ()) else Restore(a.cache, LOST, "", false, w.groups);
    if base.Done? && key != "" && key !in base.store.children {
      RestoreAddsNoBlank(a.cache, base.store, key, false, w.group);
    }
  }

  lemma CommitAddsNoBlank(a: Agent, c: Cache, after: Store, key: ModelKey, uid: Uid, v: Visit, a': Agent)
    requires NoBlank(a) && "" !in c.models && "" !in after.children && Commits(a, c, after, key, uid, v, a')
    ensures NoBlank(a')
  {
    CommittedCaches(c, Contents(a), after, key, uid, v);
  }

  lemma MutationAddsNoBlank(a: Agent, op: Op, uid: Uid, current: bool, w: Ways, a': Agent)
    requires NoBlank(a) && MutationStep(a, op, uid, current, w, a') && (CarriesUid(op) || op.Remove? ==> op.key != "")
    ensures NoBlank(a')
  {
    var base := Prepared(a.cache, a.store, CommitKey(op), w.groups, w.group);
    if a' != a {
      var issued := Issued(a.cache, base.store, op, uid, current);
      PreparedIsRestored(a, CommitKey(op), w);
      FlagsDoNotMatter(a.cache, base.store, op, uid, current, World(base.store, a.next));
      NoEmptyKey(base.store, issued, a.next);
      CommitAddsNoBlank(a, Forgotten(a.cache, base.store, issued), ApplyOp(base.store, issued, a.next), CommitKey(op),
                        CommitUid(op, uid), w.visit, a');
    }
  }

  lemma RecreationAddsNoBlank(a: Agent, modelId: ModelKey, includeOrdinary: bool, w: Ways, a': Agent)
    requires NoBlank(a) && RecreationStep(a, modelId, includeOrdinary, w, a')
    ensures NoBlank(a')
  {
    var base := Prepared(a.cache, a.store, "", w.groups, w.group);
    if a' != a {
      PreparedIsRestored(a, "", w);
      RestoreAddsNoBlank(a.cache, base.store, modelId, includeOrdinary, w.group);
      CommitAddsNoBlank(a, a.cache, Restore(a.cache, base.store, modelId, includeOrdinary, w.group).store, "", "",
                        w.visit, a');
    }
  }

  lemma StepAddsNoBlank(a: Agent, e: Event, a': Agent)
    requires NoBlank(a) && Does(a, e, a') && Keyed(e)
    ensures NoBlank(a')
  {
    match e
    case Mutates(op, uid, current, w) => MutationAddsNoBlank(a, op, uid, current, w, a');
    case Deletes(key, uid, deleting, w) =>
      if !RefusesDeletion(a.cache, key, uid) {
        MutationAddsNoBlank(a.(cache := Fenced(a.cache, key, uid, deleting)), Remove(key, uid), uid, false, w, a');
      }
    case Recreates(modelId, includeOrdinary, w) => RecreationAddsNoBlank(a, modelId, includeOrdinary, w, a');
    case Reads(v) => if a.store.Some? { CommitAddsNoBlank(a, a.cache, a.store.value, "", "", v, a'); }
    case _ =>
  }

  lemma {:induction false} RunAddsNoBlank(run: AgentRun, n: nat)
    requires run.Valid() && NoBlank(run.states[0]) && n < |run.states|
    ensures NoBlank(run.states[n])
  {
    if n > 0 {
      RunAddsNoBlank(run, n - 1);
      assert run.Linked(n - 1);
      StepAddsNoBlank(run.states[n - 1], run.events[n - 1], run.states[n]);
    }
  }

  // ---- an invalidated UID stays powerless ----

  lemma CommitKeepsInvalidated(a: Agent, c: Cache, after: Store, key: ModelKey, uid: Uid, v: Visit, a': Agent)
    requires Commits(a, c, after, key, uid, v, a')
    ensures a'.cache.invalidated == c.invalidated
  {
    CommittedKeepsInvalidated(c, Contents(a), after, key, uid, v);
  }

  lemma MutationKeepsInvalidated(a: Agent, op: Op, uid: Uid, current: bool, w: Ways, a': Agent)
    requires MutationStep(a, op, uid, current, w, a')
    ensures a'.cache.invalidated == a.cache.invalidated
  {
    var base := Prepared(a.cache, a.store, CommitKey(op), w.groups, w.group);
    if a' != a {
      var issued := Issued(a.cache, base.store, op, uid, current);
      CommitKeepsInvalidated(a, Forgotten(a.cache, base.store, issued), ApplyOp(base.store, issued, a.next),
                             CommitKey(op), CommitUid(op, uid), w.visit, a');
    }
  }

  lemma RecreationKeepsInvalidated(a: Agent, modelId: ModelKey, includeOrdinary: bool, w: Ways, a': Agent)
    requires RecreationStep(a, modelId, includeOrdinary, w, a')
    ensures a'.cache.invalidated == a.cache.invalidated
  {
    var base := Prepared(a.cache, a.store, "", w.groups, w.group);
    if a' != a {
      CommitKeepsInvalidated(a, a.cache, Restore(a.cache, base.store, modelId, includeOrdinary, w.group).store, "", "",
                             w.visit, a');
    }
  }

  lemma StepKeepsInvalidated(a: Agent, e: Event, a': Agent, key: ModelKey, uid: Uid)
    requires Does(a, e, a') && IsInvalidated(a.cache, key, uid)
    ensures IsInvalidated(a'.cache, key, uid)
  {
    match e
    case Mutates(op, u, current, w) => MutationKeepsInvalidated(a, op, u, current, w, a');
    case Deletes(k, u, deleting, w) =>
      if !RefusesDeletion(a.cache, k, u) {
        MutationKeepsInvalidated(a.(cache := Fenced(a.cache, k, u, deleting)), Remove(k, u), u, false, w, a');
      }
    case Recreates(modelId, includeOrdinary, w) => RecreationKeepsInvalidated(a, modelId, includeOrdinary, w, a');
    case Reads(v) => if a.store.Some? { CommitKeepsInvalidated(a, a.cache, a.store.value, "", "", v, a'); }
    case _ =>
  }

  lemma {:induction false} InvalidatedStays(run: AgentRun, i: nat, j: nat, key: ModelKey, uid: Uid)
    requires run.Valid() && i <= j < |run.states| && IsInvalidated(run.states[i].cache, key, uid)
    ensures IsInvalidated(run.states[j].cache, key, uid)
    decreases j
  {
    if i < j {
      InvalidatedStays(run, i, j - 1, key, uid);
      assert run.Linked(j - 1);
      StepKeepsInvalidated(run.states[j - 1], run.events[j - 1], run.states[j], key, uid);
    }
  }

  /** The step did nothing but write back what the caches held: as a plain read of the same two ConfigMaps. */
  ghost predicate OnlyRestores(a: Agent, op: Op, w: Ways, a': Agent) {
    a' == a ||
    (Ordered(a.cache, w) &&
     var base := Prepared(a.cache, a.store, CommitKey(op), w.groups, w.group);
     base.Done? && Commits(a, a.cache, base.store, "", "", w.visit, a'))
  }

  lemma StaleIsIssuedUnder(c: Cache, s: Store, op: Op, uid: Uid, current: bool)
    requires CarriesUid(op)
    ensures CarriesUid(Flagged(c, s, op, uid, current)) && Flagged(c, s, op, uid, current).key == op.key
    ensures IssuedUnder(c, Flagged(c, s, op, uid, current), CarriedUid(op, uid))
  {
  }

  lemma StaleForgetsNothing(c: Cache, s: Store, op: Op, uid: Uid, current: bool, newLock: LockId)
    requires CarriesUid(op) && IsInvalidated(c, op.key, CarriedUid(op, uid))
    requires !Fails(s, Flagged(c, s, op, uid, current), newLock)
    ensures Forgotten(c, s, Flagged(c, s, op, uid, current)) == c
    ensures CommitKey(op) != "" ==> CommitKey(op) == op.key && CommitUid(op, uid) == CarriedUid(op, uid)
  {
  }

  lemma StaleMutationOnlyRestores(a: Agent, op: Op, uid: Uid, current: bool, w: Ways, a': Agent)
    requires NoBlank(a) && CarriesUid(op) && op.key != "" && IsInvalidated(a.cache, op.key, CarriedUid(op, uid))
    requires MutationStep(a, op, uid, current, w, a')
    ensures OnlyRestores(a, op, w, a')
  {
    var base := Prepared(a.cache, a.store, CommitKey(op), w.groups, w.group);
    if a' != a {
      var issued := Flagged(a.cache, base.store, op, uid, current);
      StaleIsIssuedUnder(a.cache, base.store, op, uid, current);
      InvalidatedUidWritesNothing(World(base.store, a.next), a.cache, issued, CarriedUid(op, uid));
      StaleForgetsNothing(a.cache, base.store, op, uid, current, a.next);
      if CommitKey(op) != "" {
        PreparedIsRestored(a, CommitKey(op), w);
        StaleCommitIsARead(a.cache, Contents(a), base.store, op.key, CarriedUid(op, uid), w.visit);
      }
    }
  }

  /** What a step carrying this UID of this model may do once the UID is invalidated. */
  ghost predicate Powerless(a: Agent, e: Event, a': Agent, key: ModelKey, uid: Uid) {
    match e
    case Mutates(op, u, _, w) => CarriesUid(op) && op.key == key && CarriedUid(op, u) == uid ==>
      OnlyRestores(a, op, w, a')
    case Deletes(k, u, _, _) =>
      k == key && u == uid && u != "" && key in a.cache.models && a.cache.models[key].uid !in {"", uid} ==> a' == a
    case Caches(k, _, u, _, _) => k == key && u == uid ==> a' == a
    case Adopts(k, receipt, _) => k == key && receipt.uid == uid ==> a' == a
    case _ => true
  }

  /**
   In every run, whatever other processes write and whether or not callers do their duty: from the
   moment a model's UID is invalidated, every later step that carries it leaves the ConfigMap as
   recovery alone leaves it and the caches as a plain read would; it registers nothing, takes no receipt
   over, and deletes nothing that another UID owns by then.
   */
  lemma InvalidatedUidIsPowerless(run: AgentRun, i: nat, j: nat, key: ModelKey, uid: Uid)
    requires run.Valid() && NoBlank(run.states[0]) && i <= j < |run.events|
    requires IsInvalidated(run.states[i].cache, key, uid)
    ensures Powerless(run.states[j], run.events[j], run.states[j + 1], key, uid)
  {
    var a, e, a' := run.states[j], run.events[j], run.states[j + 1];
    InvalidatedStays(run, i, j, key, uid);
    RunAddsNoBlank(run, j);
    assert run.Linked(j);
    if e.Mutates? && CarriesUid(e.op) && e.op.key == key && CarriedUid(e.op, e.uid) == uid {
      StaleMutationOnlyRestores(a, e.op, e.uid, e.current, e.ways, a');
    }
  }

  lemma DeletionInvalidates(a: Agent, key: ModelKey, uid: Uid, w: Ways, a': Agent)
    requires DeletionStep(a, key, uid, true, w, a') && !RefusesDeletion(a.cache, key, uid) && uid != ""
    ensures IsInvalidated(a'.cache, key, uid)
  {
    MutationKeepsInvalidated(a.(cache := Fenced(a.cache, key, uid, true)), Remove(key, uid), uid, false, w, a');
  }

  /** Deleting a model resource is such a moment: afterwards every task of the deleted instance is powerless. */
  lemma DeletedUidIsPowerless(run: AgentRun, i: nat, j: nat, key: ModelKey, uid: Uid)
    requires run.Valid() && NoBlank(run.states[0]) && i < j < |run.events| && uid != ""
    requires run.events[i].Deletes? && run.events[i].key == key && run.events[i].uid == uid && run.events[i].deleting
    requires !RefusesDeletion(run.states[i].cache, key, uid)
    ensures Powerless(run.states[j], run.events[j], run.states[j + 1], key, uid)
  {
    assert IsInvalidated(run.states[i + 1].cache, key, uid) by {
      assert run.Linked(i);
      DeletionInvalidates(run.states[i], key, uid, run.events[i].ways, run.states[i + 1]);
    }
    InvalidatedUidIsPowerless(run, i + 1, j, key, uid);
  }
}
