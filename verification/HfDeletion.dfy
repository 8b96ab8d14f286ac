/**
 One child's deletion as the Delete task runs it, alone and with crashes (gopher_hf_artifact.go,
 hf_artifact_delete.go, hf_artifact_pending_deletion.go, hf_artifact_pending_download.go,
 hf_artifact_startup.go): turn a download intent into a receipt, recover the parent, detach the child
 under a receipt, take over and clean up the parent, remove the model's record.
 */
module HfDeletion {
  import opened HfTypes
  import opened HfRepository
  import opened HfRuns
  import opened HfProtocol

  /**
   What stays fixed while nobody else acts. `kept`: the child path has another consumer or is reserved;
   `otherLinks`: other symlinks point at the directory; `current`: the lister names this UID as the model's.
   */
  datatype Env = Env(id: Identity, home: DirPath, key: ModelKey, uid: Uid, path: Path, kept: bool, otherLinks: bool,
                     current: bool)

  /** Everything that survives a crash. `linked`: the child's symlink is in place. */
  datatype Persistent = Persistent(store: Store, next: LockId, present: bool, marker: Marker, linked: bool)

  datatype Point =
    | Begin
    | Resuming(receipt: PendingDeletion)
    | Owning(receipt: PendingDeletion, lookup: Lookup)
    | ChildUnlinked(receipt: PendingDeletion, lookup: Lookup)
    | Emptied(receipt: PendingDeletion, parent: Parent)
    | Giving(parent: Parent, before: ParentStatus)
    | Cleaned
    | Finished

  datatype Machine = Machine(disk: Persistent, point: Point)

  // ---- the procedure ----

  /** Another child's download or link still needs the directory, or the path is still wanted. */
  predicate Keeps(env: Env, s: Persistent) {
    env.kept || env.otherLinks || HasPendingDownloads(s.store, env.id, env.home)
  }

  /** An owner that stopped: no deletion receipt holds its lock, or its marker says it had finished. */
  predicate Abandoned(env: Env, s: Persistent) {
    && env.id in s.store.parents && s.store.parents[env.id].status == Updating
       && s.store.parents[env.id].lockId != NO_LOCK
    && (s.marker == Wrote(s.store.parents[env.id].lockId) || !OwnedByReceipt(s.store, s.store.parents[env.id].lockId))
  }

  function Write(s: Persistent, op: Op): Persistent {
    s.(store := ApplyOp(s.store, op, s.next), next := s.next + 1)
  }

  /** recoverParentAtPath. */
  function Recovered(env: Env, s: Persistent): Persistent
    requires Abandoned(env, s)
  {
    var parent := s.store.parents[env.id];
    Write(s, Release(env.id, parent, if s.marker == Wrote(parent.lockId) then Ready else Updating))
  }

  function Released(env: Env, s: Persistent, parent: Parent, before: ParentStatus): Persistent {
    Write(s, Release(env.id, parent, ReleaseTarget(before, s.marker != NoMarker)))
  }

  predicate OwnsDeletion(receipt: PendingDeletion, lookup: Lookup) {
    lookup.Found? && lookup.parent.children == map[] && receipt.parentLock != NO_LOCK
  }

  /** The child intends to download into a shared directory and has no reference yet. */
  predicate HasIntent(env: Env, s: Persistent) {
    env.key in s.store.children && s.store.children[env.key].pendingDownload.Some?
  }

  /** The task may work on what carries this UID: it is its own, or its own is proven to be current. */
  predicate Entitled(env: Env, uid: Uid) {
    uid == env.uid || (env.current && env.uid != "")
  }

  /** reconcileHfArtifactCleanup: the intent becomes a receipt of the same directory. */
  function Converted(env: Env, s: Persistent): Persistent
    requires HasIntent(env, s)
  {
    Write(s, BeginDownloadDeletion(env.key, env.uid, s.store.children[env.key].pendingDownload.value, false,
                                   env.current))
  }

  function BeginStep(env: Env, s: Persistent): Machine {
    if env.key !in s.store.children then Machine(s, Cleaned)
    else if HasIntent(env, s) then Machine(Converted(env, s), Begin)
    else
      var child := s.store.children[env.key];
      if child.pendingDeletion.None? && child.parentKey != Some(env.id) then Machine(s, Cleaned)
      else if Abandoned(env, s) then Machine(Recovered(env, s), Begin)
      else if child.pendingDeletion.Some? then Machine(s, Resuming(child.pendingDeletion.value))
      else if env.id !in s.store.parents then Machine(s, Begin)
      else
        var parent := s.store.parents[env.id];
        var o := RemoveModelReference(s.store, env.id, parent, env.key, env.uid, env.path, true, false, s.next);
        if o.Rejected? || !o.result.removed then Machine(s, Begin)
        else
          var t := Write(s, RemoveReference(env.id, parent, env.key, env.uid, env.path, true, false));
          if !env.kept then
            Machine(t, Resuming(PendingDeletion(env.id, parent.localPath, env.path, env.uid, o.result.artifact.lockId,
                                                parent.status == Ready, Some(parent.status))))
          else if o.result.last then Machine(t, Giving(o.result.artifact, parent.status))
          else Machine(t, Cleaned)
  }

  function OwnStep(env: Env, s: Persistent, receipt: PendingDeletion): Machine {
    var o := DeletionParent(s.store, env.key, receipt, !s.present, false, s.next);
    if o.Rejected? then Machine(s, Begin)
    else Machine(Write(s, OwnDeletion(env.key, receipt, !s.present, false)), Owning(o.result.receipt, o.result.lookup))
  }

  /** claimPendingDeletion: the receipt of another UID passes to this one first. */
  function ClaimStep(env: Env, s: Persistent, receipt: PendingDeletion): Machine {
    if ClaimPendingDeletion(s.store, env.key, env.uid, receipt, !s.present, env.current).Rejected?
    then Machine(s, Begin)
    else Machine(Write(s, Claim(env.key, env.uid, receipt, !s.present, env.current)),
                 Resuming(receipt.(uid := env.uid)))
  }

  function CleanStep(env: Env, s: Persistent, receipt: PendingDeletion, lookup: Lookup): Machine {
    if !OwnsDeletion(receipt, lookup) then Machine(s, Cleaned)
    else if Keeps(env, s) then Machine(Released(env, s, lookup.parent, receipt.StatusBeforeDeletion()), Cleaned)
    else Machine(s.(present := false, marker := NoMarker), Emptied(receipt, lookup.parent))
  }

  /** One step: at most one write to the records or the files. */
  function Advance(env: Env, m: Machine): Machine {
    var s := m.disk;
    match m.point
    case Begin => BeginStep(env, s)
    case Resuming(receipt) => if receipt.uid == env.uid then OwnStep(env, s, receipt) else ClaimStep(env, s, receipt)
    case Owning(receipt, lookup) =>
      if env.kept then CleanStep(env, s, receipt, lookup)
      else Machine(s.(linked := false), ChildUnlinked(receipt, lookup))
    case ChildUnlinked(receipt, lookup) => CleanStep(env, s, receipt, lookup)
    case Emptied(receipt, parent) => Machine(Write(s, DeleteParent(env.id, parent)), Cleaned)
    case Giving(parent, before) => Machine(Released(env, s, parent, before), Cleaned)
    case Cleaned => Machine(Write(s, Remove(env.key, env.uid)), Finished)
    case Finished => m
  }

  /** What can happen next: a step, a crash after it, or a crash that leaves the directory partly removed. */
  datatype Move = Go | Crash | CrashRemoving(markerSurvives: bool)

  function Play(env: Env, m: Machine, move: Move): Machine {
    match move
    case Go => Advance(env, m)
    case Crash => Machine(m.disk, Begin)
    case CrashRemoving(survives) =>
      if m.point.ChildUnlinked? && OwnsDeletion(m.point.receipt, m.point.lookup) && !Keeps(env, m.disk)
      then Machine(m.disk.(marker := if survives then m.disk.marker else NoMarker), Begin)
      else Machine(m.disk, Begin)
  }

  // ---- where it must end ----

  /** A parent record with lock IDs reduced to present or absent. */
  function Unnumbered(p: Parent): Parent {
    p.(lockId := if p.lockId == NO_LOCK then NO_LOCK else 1,
       lastCompleted := if p.lastCompleted == NO_LOCK then NO_LOCK else 1)
  }

  /** The records and files apart from the deleted model, lock numbers left out. */
  datatype Final = Final(
    children: map<ModelKey, Child>,
    parents: map<Identity, Parent>,
    parent: Option<Parent>,
    present: bool,
    marker: Marker,
    linked: bool)

  function Summary(env: Env, s: Persistent): Final {
    Final(s.store.children - {env.key}, s.store.parents - {env.id},
          if env.id in s.store.parents then Some(Unnumbered(s.store.parents[env.id])) else None,
          s.present, s.marker, s.linked)
  }

  /** The end of a deletion that finds its parent unused, with this status before it. */
  function UnusedEnd(env: Env, s: Persistent, parent: Parent, before: ParentStatus): Final {
    var left := Summary(env, s).(linked := s.linked && env.kept);
    if Keeps(env, s) then
      left.(parent :=
            Some(Unnumbered(parent.(children := map[], saved := map[],
                                    status := ReleaseTarget(before, s.marker != NoMarker),
                                    lockId := NO_LOCK, lastCompleted := 1))))
    else left.(parent := None, present := false, marker := NoMarker)
  }

  /** The status the deletion found, through its receipt if it already owns the parent. */
  function FoundStatus(receipt: PendingDeletion, parent: Parent): ParentStatus {
    if parent.lockId != NO_LOCK && parent.lockId == receipt.parentLock then receipt.StatusBeforeDeletion()
    else parent.status
  }

  /** The end of the deletion from a state without abandoned owner. */
  function SettledTarget(env: Env, s: Persistent): Final {
    var end := Summary(env, s).(linked := s.linked && env.kept);
    if env.key !in s.store.children then Summary(env, s)
    else
      var child := s.store.children[env.key];
      if child.pendingDeletion.None? && child.parentKey != Some(env.id) then Summary(env, s)
      else if env.id !in s.store.parents then end
      else
        var parent := s.store.parents[env.id];
        if child.pendingDeletion.Some? then
          if parent.children != map[] then end
          else UnusedEnd(env, s, parent, FoundStatus(child.pendingDeletion.value, parent))
        else
          var others := parent.(children := parent.children - {env.key}, saved := parent.saved - {env.key});
          if others.children != map[] then end.(parent := Some(Unnumbered(others)))
          else UnusedEnd(env, s, others, parent.status)
  }

  predicate InProgress(env: Env, s: Persistent) {
    env.key in s.store.children
      && (s.store.children[env.key].pendingDeletion.Some? || s.store.children[env.key].parentKey == Some(env.id))
  }

  function ReceiptTarget(env: Env, s: Persistent): Final {
    if InProgress(env, s) && Abandoned(env, s) then SettledTarget(env, Recovered(env, s)) else SettledTarget(env, s)
  }

  function Target(env: Env, s: Persistent): Final {
    ReceiptTarget(env, if HasIntent(env, s) then Converted(env, s) else s)
  }

  // ---- what every point relies on ----

  /** The receipt belongs to this deletion, and no marker carries its lock. */
  predicate ReceiptOk(env: Env, s: Persistent, receipt: PendingDeletion) {
    && receipt.identity == env.id && receipt.parentPath == env.home && receipt.childPath == env.path
    && Entitled(env, receipt.uid)
    && (receipt.parentLock != NO_LOCK ==> s.marker != Wrote(receipt.parentLock))
    && (HoldsLock(s.store, env.id, receipt.parentLock) ==> s.store.parents[env.id].children == map[])
  }

  predicate ChildOk(env: Env, s: Persistent, child: Child) {
    && (child.pendingDownload.Some? ==>
          var intent := child.pendingDownload.value;
          intent == PendingDownload(env.id, env.home, env.path, intent.uid) && Entitled(env, intent.uid))
    && (child.parentKey.None? || child.parentKey == Some(env.id))
    && (child.pendingDeletion.Some? ==> ReceiptOk(env, s, child.pendingDeletion.value))
    && (child.parentKey == Some(env.id) && env.id in s.store.parents && env.key in s.store.parents[env.id].children ==>
          s.store.parents[env.id].children[env.key] == env.path)
  }

  /** Receipts name locks issued before, and no other child's receipt owns this parent. */
  ghost predicate ReceiptsApart(env: Env, s: Persistent) {
    forall k :: k in s.store.children && s.store.children[k].pendingDeletion.Some? ==>
      && s.store.children[k].pendingDeletion.value.parentLock < s.next
      && (k != env.key && env.id in s.store.parents && s.store.parents[env.id].lockId != NO_LOCK ==>
            s.store.children[k].pendingDeletion.value.parentLock != s.store.parents[env.id].lockId)
  }

  ghost predicate Local(env: Env, s: Persistent) {
    && ReceiptsApart(env, s)
    && env.home.identity == env.id && env.path != ""
    && (env.id in s.store.parents ==> s.store.parents[env.id].localPath == env.home)
    && (s.marker.Wrote? ==> s.marker.lock < s.next)
    && (env.key in s.store.children ==> ChildOk(env, s, s.store.children[env.key]))
  }

  ghost predicate Sound(env: Env, s: Persistent) {
    Inv(World(s.store, s.next)) && Local(env, s)
  }

  /** What a step needs of the invariant of the records. */
  predicate Facts(env: Env, s: Persistent) {
    && s.next != NO_LOCK
    && (env.id in s.store.parents ==>
          var p := s.store.parents[env.id]; LockShape(p) && SavedShape(p) && p.lockId < s.next)
    && (env.key in s.store.children ==> OneRole(s.store.children[env.key]))
    && (Lists(s.store, env.id, env.key) <==> Names(s.store, env.id, env.key))
  }

  lemma InvGivesFacts(env: Env, s: Persistent)
    requires Inv(World(s.store, s.next))
    ensures Facts(env, s)
  {
  }

  /** The local variables of a resumed deletion agree with the records. */
  predicate OwnerOk(env: Env, s: Persistent, receipt: PendingDeletion, lookup: Lookup) {
    && HoldsReceipt(s.store, env.key, receipt) && !HasIntent(env, s) && receipt.uid == env.uid
    && (if env.id in s.store.parents then lookup == Found(env.id, s.store.parents[env.id]) else lookup == NotFound)
    && (lookup.Found? && lookup.parent.children == map[] ==>
          receipt.parentLock != NO_LOCK && lookup.parent.status == Updating
            && lookup.parent.lockId == receipt.parentLock)
    && (lookup.Found? && lookup.parent.children != map[] ==> lookup.parent.lockId == NO_LOCK)
  }

  function Receipt(env: Env, s: Persistent): Option<PendingDeletion> {
    if env.key in s.store.children then s.store.children[env.key].pendingDeletion else None
  }

  predicate PointOk(env: Env, s: Persistent, point: Point) {
    match point
    case Begin => true
    case Resuming(receipt) => HoldsReceipt(s.store, env.key, receipt) && !HasIntent(env, s) && !Abandoned(env, s)
    case Owning(receipt, lookup) => OwnerOk(env, s, receipt, lookup)
    case ChildUnlinked(receipt, lookup) => OwnerOk(env, s, receipt, lookup) && !env.kept && !s.linked
    case Emptied(receipt, parent) => OwnerOk(env, s, receipt, Found(env.id, parent)) && parent.children == map[]
      && !s.present && s.marker == NoMarker && !s.linked && !Keeps(env, s)
    case Giving(parent, before) =>
      && env.kept && env.key in s.store.children && s.store.children[env.key].pendingDeletion.Some?
      && OwnerOk(env, s, s.store.children[env.key].pendingDeletion.value, Found(env.id, parent))
         && parent.children == map[]
      && s.store.children[env.key].pendingDeletion.value.StatusBeforeDeletion() == before
    case Cleaned =>
      && Summary(env, s) == Target(env, s) && !HasIntent(env, s)
      && (env.key in s.store.children ==> s.store.children[env.key].parentKey.None?)
      && (Receipt(env, s).Some? ==> Receipt(env, s).value.uid == env.uid)
    case Finished => env.key !in s.store.children
  }

  ghost predicate Valid(env: Env, m: Machine) {
    Sound(env, m.disk) && PointOk(env, m.disk, m.point)
  }

  /** A step that keeps the local conditions and does not move the goal. */
  ghost predicate KeepsGoal(env: Env, s: Persistent, m: Machine) {
    Local(env, m.disk) && PointOk(env, m.disk, m.point) && Target(env, m.disk) == Target(env, s)
  }

  // ---- the last step ----

  lemma FinishKeeps(env: Env, s: Persistent)
    requires Facts(env, s) && Local(env, s) && PointOk(env, s, Cleaned)
    ensures KeepsGoal(env, s, Advance(env, Machine(s, Cleaned)))
  {
    var t := Write(s, Remove(env.key, env.uid));
    assert t.store.children - {env.key} == s.store.children - {env.key};
  }

  // ---- releases of an unused parent ----

  lemma ReleasedRecord(s: Store, id: Identity, p: Parent, status: ParentStatus)
    requires id in s.parents && s.parents[id] == p && CanonicalPath(id, p.localPath)
    requires p.status == Updating && p.lockId != NO_LOCK && p.children == map[] && p.saved == map[]
    ensures SetStatus(s, id, p, status) ==
              Done(s.(parents := s.parents[id := p.(status := status, lastCompleted := p.lockId, lockId := NO_LOCK)]),
                   ())
  {
    assert StatusesToRestore(s, id, p, p) == map[];
    assert WithStatuses(s.children, map[]) == s.children;
  }

  /** A deletion that owns an unused parent, seen from its goal. */
  lemma OwnedGoal(env: Env, s: Persistent, receipt: PendingDeletion, p: Parent)
    requires Local(env, s) && OwnerOk(env, s, receipt, Found(env.id, p)) && p.children == map[]
    ensures !Abandoned(env, s) && Target(env, s) == UnusedEnd(env, s, p, receipt.StatusBeforeDeletion())
  {
    assert OwnedByReceipt(s.store, p.lockId);
  }

  /** Giving the parent back is the end, up to the model's own record. */
  lemma ReleaseSettles(env: Env, s: Persistent, receipt: PendingDeletion, p: Parent)
    requires Facts(env, s) && Local(env, s) && OwnerOk(env, s, receipt, Found(env.id, p)) && p.children == map[]
    requires Keeps(env, s) && (s.linked ==> env.kept)
    ensures KeepsGoal(env, s, Machine(Released(env, s, p, receipt.StatusBeforeDeletion()), Cleaned))
  {
    var target := ReleaseTarget(receipt.StatusBeforeDeletion(), s.marker != NoMarker);
    var t := Released(env, s, p, receipt.StatusBeforeDeletion());
    OwnedGoal(env, s, receipt, p);
    assert p.saved == map[];
    ReleasedRecord(s.store, env.id, p, target);
    var p' := p.(status := target, lastCompleted := p.lockId, lockId := NO_LOCK);
    assert t.store == s.store.(parents := s.store.parents[env.id := p']);
    assert t.store.parents - {env.id} == s.store.parents - {env.id};
    assert Target(env, t) == UnusedEnd(env, t, p', target);
  }

  // ---- cleaning up ----

  lemma RemoveSettles(env: Env, s: Persistent, receipt: PendingDeletion, p: Parent, marker: Marker)
    requires Facts(env, s) && Local(env, s) && OwnerOk(env, s, receipt, Found(env.id, p)) && p.children == map[]
    requires !Keeps(env, s) && !s.linked && (marker == NoMarker || marker == s.marker)
    ensures Target(env, s.(marker := marker)) == Target(env, s) && Local(env, s.(marker := marker))
    ensures KeepsGoal(env, s, Machine(s.(present := false, marker := NoMarker), Emptied(receipt, p)))
  {
    var t := s.(present := false, marker := NoMarker);
    OwnedGoal(env, s, receipt, p);
    OwnedGoal(env, t, receipt, p);
    OwnedGoal(env, s.(marker := marker), receipt, p);
  }

  lemma NothingToClean(env: Env, s: Persistent, receipt: PendingDeletion, lookup: Lookup)
    requires Facts(env, s) && Local(env, s) && OwnerOk(env, s, receipt, lookup) && !OwnsDeletion(receipt, lookup)
    requires s.linked ==> env.kept
    ensures KeepsGoal(env, s, Machine(s, Cleaned))
  {
  }

  lemma CleanKeeps(env: Env, s: Persistent, receipt: PendingDeletion, lookup: Lookup)
    requires Facts(env, s) && Local(env, s) && OwnerOk(env, s, receipt, lookup) && (s.linked ==> env.kept)
    ensures KeepsGoal(env, s, CleanStep(env, s, receipt, lookup))
  {
    if !OwnsDeletion(receipt, lookup) {
      NothingToClean(env, s, receipt, lookup);
    } else if Keeps(env, s) {
      ReleaseSettles(env, s, receipt, lookup.parent);
    } else {
      RemoveSettles(env, s, receipt, lookup.parent, s.marker);
    }
  }

  lemma UnlinkKeeps(env: Env, s: Persistent, receipt: PendingDeletion, lookup: Lookup)
    requires Facts(env, s) && Local(env, s) && OwnerOk(env, s, receipt, lookup) && !env.kept
    ensures KeepsGoal(env, s, Machine(s.(linked := false), ChildUnlinked(receipt, lookup)))
  {
    var t := s.(linked := false);
    assert !Abandoned(env, s) && !Abandoned(env, t) by {
      if env.id in s.store.parents && s.store.parents[env.id].lockId != NO_LOCK {
        OwnedGoal(env, s, receipt, lookup.parent);
      }
    }
  }

  lemma EmptiedKeeps(env: Env, s: Persistent, receipt: PendingDeletion, p: Parent)
    requires Facts(env, s) && Local(env, s) && PointOk(env, s, Emptied(receipt, p))
    ensures KeepsGoal(env, s, Advance(env, Machine(s, Emptied(receipt, p))))
  {
    var t := Write(s, DeleteParent(env.id, p));
    OwnedGoal(env, s, receipt, p);
    assert t.store == s.store.(parents := s.store.parents - {env.id});
    assert t.store.parents - {env.id} == s.store.parents - {env.id};
  }

  // ---- taking over the parent ----

  /** Without an abandoned owner, a held lock is this receipt's. */
  lemma HeldByThisReceipt(env: Env, s: Persistent)
    requires Local(env, s) && !Abandoned(env, s) && env.id in s.store.parents
    requires s.store.parents[env.id].status == Updating && s.store.parents[env.id].lockId != NO_LOCK
    ensures env.key in s.store.children && s.store.children[env.key].pendingDeletion.Some?
    ensures s.store.children[env.key].pendingDeletion.value.parentLock == s.store.parents[env.id].lockId
    ensures s.store.parents[env.id].children == map[]
  {
    var lock := s.store.parents[env.id].lockId;
    var k :| k in s.store.children && s.store.children[k].pendingDeletion.Some?
      && s.store.children[k].pendingDeletion.value.parentLock == lock;
    assert k == env.key;
  }

  lemma OwnNew(env: Env, s: Persistent, receipt: PendingDeletion, p: Parent)
    requires Facts(env, s) && Local(env, s) && HoldsReceipt(s.store, env.key, receipt) && receipt.uid == env.uid
    requires env.id in s.store.parents && s.store.parents[env.id] == p && p.lockId == NO_LOCK && !p.BlocksNewOperation()
    requires p.children == map[]
    ensures KeepsGoal(env, s, OwnStep(env, s, receipt))
  {
    var next := receipt.(parentWasReady := p.status == Ready, statusBefore := Some(p.status), parentLock := s.next);
    var owned := p.(status := Updating, lockId := s.next, lastCompleted := NO_LOCK);
    var child := s.store.children[env.key].(pendingDeletion := Some(next));
    var t := s.(store := Store(s.store.parents[env.id := owned], s.store.children[env.key := child]),
                next := s.next + 1);
    assert OwnStep(env, s, receipt) == Machine(t, Owning(next, Found(env.id, owned)));
    assert OwnerOk(env, t, next, Found(env.id, owned));
    assert t.store.parents - {env.id} == s.store.parents - {env.id}
           && t.store.children - {env.key} == s.store.children - {env.key};
    SameIntents(env, s, t);
    assert Local(env, t);
    OwnedGoal(env, t, next, owned);
  }

  lemma SameIntents(env: Env, s: Persistent, t: Persistent)
    requires t.store.children - {env.key} == s.store.children - {env.key}
    requires env.key in s.store.children ==> s.store.children[env.key].pendingDownload.None?
    requires env.key in t.store.children ==> t.store.children[env.key].pendingDownload.None?
    ensures Keeps(env, t) == Keeps(env, s)
  {
    forall k ensures (k in s.store.children && NamesDirectory(s.store.children[k], env.id, env.home)) <==>
                     (k in t.store.children && NamesDirectory(t.store.children[k], env.id, env.home)) {
      assert k != env.key && k in s.store.children ==> k in s.store.children - {env.key};
      assert k != env.key && k in t.store.children ==> k in t.store.children - {env.key};
    }
  }

  /** Nothing was written, but a lock number was used up. */
  lemma NumberUsed(env: Env, s: Persistent)
    requires Local(env, s) && !Abandoned(env, s) && !HasIntent(env, s)
    ensures Local(env, s.(next := s.next + 1)) && Target(env, s.(next := s.next + 1)) == Target(env, s)
  {
  }

  lemma OwnExisting(env: Env, s: Persistent, receipt: PendingDeletion)
    requires Facts(env, s) && Local(env, s) && PointOk(env, s, Resuming(receipt)) && receipt.uid == env.uid
    requires env.id in s.store.parents ==>
               s.store.parents[env.id].lockId != NO_LOCK || s.store.parents[env.id].children != map[]
    ensures var m := OwnStep(env, s, receipt);
            m.disk == s.(next := s.next + 1) && m.point.Owning? && m.point.receipt == receipt
              && OwnerOk(env, s, receipt, m.point.lookup)
  {
    if env.id in s.store.parents && s.store.parents[env.id].lockId != NO_LOCK { HeldByThisReceipt(env, s); }
  }

  lemma OwnKeeps(env: Env, s: Persistent, receipt: PendingDeletion)
    requires Facts(env, s) && Local(env, s) && PointOk(env, s, Resuming(receipt)) && receipt.uid == env.uid
    ensures KeepsGoal(env, s, OwnStep(env, s, receipt)) && OwnStep(env, s, receipt).point.Owning?
  {
    if env.id in s.store.parents && s.store.parents[env.id].lockId == NO_LOCK
      && s.store.parents[env.id].children == map[] {
      OwnNew(env, s, receipt, s.store.parents[env.id]);
    } else {
      OwnExisting(env, s, receipt);
      NumberUsed(env, s);
    }
  }

  /** Passing the receipt on moves nothing but its UID. */
  lemma ClaimKeeps(env: Env, s: Persistent, receipt: PendingDeletion)
    requires Facts(env, s) && Local(env, s) && PointOk(env, s, Resuming(receipt)) && receipt.uid != env.uid
    ensures var m := ClaimStep(env, s, receipt);
            KeepsGoal(env, s, m) && m.point.Resuming? && m.point.receipt.uid == env.uid
  {
    var next := receipt.(uid := env.uid);
    var child := s.store.children[env.key].(pendingDeletion := Some(next));
    var t := s.(store := s.store.(children := s.store.children[env.key := child]), next := s.next + 1);
    if env.id in s.store.parents && s.store.parents[env.id].BlocksNewOperation() { HeldByThisReceipt(env, s); }
    assert ClaimStep(env, s, receipt) == Machine(t, Resuming(next));
    ClaimedGoal(env, s, t, receipt);
  }

  /** Only the UID of this model's receipt differs. */
  predicate ReceiptPassed(env: Env, s: Persistent, t: Persistent, receipt: PendingDeletion) {
    HoldsReceipt(s.store, env.key, receipt)
      && var child := s.store.children[env.key].(pendingDeletion := Some(receipt.(uid := env.uid)));
         t == s.(store := s.store.(children := s.store.children[env.key := child]), next := s.next + 1)
  }

  lemma PassedIsOwned(env: Env, s: Persistent, t: Persistent, receipt: PendingDeletion, lock: LockId)
    requires ReceiptPassed(env, s, t, receipt) && OwnedByReceipt(s.store, lock)
    ensures OwnedByReceipt(t.store, lock)
  {
    var k :| k in s.store.children && s.store.children[k].pendingDeletion.Some?
      && s.store.children[k].pendingDeletion.value.parentLock == lock;
    assert k in t.store.children && t.store.children[k].pendingDeletion.Some?
           && t.store.children[k].pendingDeletion.value.parentLock == lock;
  }

  lemma PassedTarget(env: Env, s: Persistent, t: Persistent, receipt: PendingDeletion)
    requires ReceiptPassed(env, s, t, receipt) && !HasIntent(env, s) && !Abandoned(env, s) && !Abandoned(env, t)
    ensures Target(env, t) == Target(env, s)
  {
    assert t.store.children - {env.key} == s.store.children - {env.key};
    SameIntents(env, s, t);
  }

  lemma ClaimedGoal(env: Env, s: Persistent, t: Persistent, receipt: PendingDeletion)
    requires Facts(env, s) && Local(env, s) && PointOk(env, s, Resuming(receipt)) && ReceiptPassed(env, s, t, receipt)
    ensures Local(env, t) && !Abandoned(env, t) && Target(env, t) == Target(env, s)
  {
    if env.id in s.store.parents && OwnedByReceipt(s.store, s.store.parents[env.id].lockId) {
      PassedIsOwned(env, s, t, receipt, s.store.parents[env.id].lockId);
    }
    PassedTarget(env, s, t, receipt);
  }

  // ---- the first step ----

  lemma BeginElsewhere(env: Env, s: Persistent)
    requires Facts(env, s) && Local(env, s) && !InProgress(env, s) && !HasIntent(env, s)
    ensures KeepsGoal(env, s, Machine(s, Cleaned))
  {
  }

  /** Recovery changes the owner, the saved statuses and child statuses, nothing else. */
  lemma RecoveredRecord(env: Env, s: Persistent)
    requires Facts(env, s) && Local(env, s) && Abandoned(env, s)
    ensures var t := Recovered(env, s);
            && env.id in t.store.parents && t.store.parents[env.id].lockId == NO_LOCK
               && t.store.parents[env.id].localPath == env.home
            && t.store.parents[env.id].children == s.store.parents[env.id].children
            && t.store.children.Keys == s.store.children.Keys
            && (forall k :: k in t.store.children ==>
                t.store.children[k] == s.store.children[k].(status := t.store.children[k].status))
  {
    var p := s.store.parents[env.id];
    var status := if s.marker == Wrote(p.lockId) then Ready else Updating;
    ReleaseEffect(s.store, env.id, p, status);
    assert SetStatus(s.store, env.id, p, status).Done?;
  }

  lemma RecoverKeeps(env: Env, s: Persistent)
    requires Facts(env, s) && Local(env, s) && InProgress(env, s) && !HasIntent(env, s) && Abandoned(env, s)
    ensures KeepsGoal(env, s, Machine(Recovered(env, s), Begin)) && InProgress(env, Recovered(env, s))
    ensures !Abandoned(env, Recovered(env, s))
  {
    RecoveredRecord(env, s);
  }

  /** An attached child of a parent without abandoned owner can be detached. */
  lemma Detachable(env: Env, s: Persistent)
    requires Facts(env, s) && Local(env, s) && !Abandoned(env, s)
    requires env.key in s.store.children && s.store.children[env.key].parentKey == Some(env.id)
    ensures env.id in s.store.parents && env.key in s.store.parents[env.id].children
    ensures s.store.children[env.key].pendingDeletion.None?
    ensures var p := s.store.parents[env.id];
            p.lockId == NO_LOCK && !p.BlocksNewOperation() && p.children[env.key] == env.path
  {
    assert Names(s.store, env.id, env.key);
    if s.store.parents[env.id].lockId != NO_LOCK { HeldByThisReceipt(env, s); }
  }

  function DetachedParent(env: Env, p: Parent, newLock: LockId): Parent {
    LeftBehind(p, env.key, newLock)
  }

  function ReceiptOf(env: Env, p: Parent, newLock: LockId): PendingDeletion {
    DetachReceipt(env.id, p, LeftBehind(p, env.key, newLock), env.uid, env.path)
  }

  function DetachedState(env: Env, s: Persistent, p: Parent): Persistent
    requires env.key in s.store.children
  {
    var child := s.store.children[env.key].(parentKey := None, pendingDeletion := Some(ReceiptOf(env, p, s.next)));
    s.(store := Store(s.store.parents[env.id := DetachedParent(env, p, s.next)], s.store.children[env.key := child]),
       next := s.next + 1)
  }

  lemma DetachStep(env: Env, s: Persistent)
    requires Facts(env, s) && Local(env, s) && !Abandoned(env, s)
    requires env.key in s.store.children && s.store.children[env.key].parentKey == Some(env.id)
    ensures env.id in s.store.parents
    ensures var p := s.store.parents[env.id];
            BeginStep(env, s) == Machine(DetachedState(env, s, p),
              if !env.kept then Resuming(ReceiptOf(env, p, s.next))
              else if DetachedParent(env, p, s.next).children == map[]
              then Giving(DetachedParent(env, p, s.next), p.status)
              else Cleaned)
  {
    Detachable(env, s);
  }

  lemma DetachedLocal(env: Env, s: Persistent, p: Parent)
    requires Facts(env, s) && Local(env, s) && env.id in s.store.parents && s.store.parents[env.id] == p
    requires env.key in s.store.children && p.lockId == NO_LOCK
    ensures Local(env, DetachedState(env, s, p)) && !Abandoned(env, DetachedState(env, s, p))
  {
    var t := DetachedState(env, s, p);
    if t.store.parents[env.id].lockId != NO_LOCK {
      assert t.store.children[env.key].pendingDeletion.value.parentLock == s.next;
    }
  }

  lemma DetachedGoal(env: Env, s: Persistent, p: Parent)
    requires Facts(env, s) && Local(env, s) && !Abandoned(env, s) && env.id in s.store.parents
    requires s.store.parents[env.id] == p && p.lockId == NO_LOCK
    requires env.key in s.store.children && s.store.children[env.key].parentKey == Some(env.id)
    requires s.store.children[env.key].pendingDeletion.None?
    ensures Target(env, DetachedState(env, s, p)) == Target(env, s)
    ensures DetachedParent(env, p, s.next).children != map[] && env.kept ==>
              Summary(env, DetachedState(env, s, p)) == Target(env, s)
  {
    var t := DetachedState(env, s, p);
    DetachedLocal(env, s, p);
    assert t.store.parents - {env.id} == s.store.parents - {env.id}
           && t.store.children - {env.key} == s.store.children - {env.key};
    SameIntents(env, s, t);
  }

  lemma BeginAttached(env: Env, s: Persistent)
    requires Facts(env, s) && Local(env, s) && !Abandoned(env, s)
    requires env.key in s.store.children && s.store.children[env.key].parentKey == Some(env.id)
    ensures KeepsGoal(env, s, BeginStep(env, s)) && !BeginStep(env, s).point.Begin?
  {
    Detachable(env, s);
    DetachStep(env, s);
    var p := s.store.parents[env.id];
    DetachedLocal(env, s, p);
    DetachedGoal(env, s, p);
  }

  /** The intent names this directory and this task's UID, so it becomes a receipt that owns no lock yet. */
  lemma ConvertKeeps(env: Env, s: Persistent)
    requires Facts(env, s) && Local(env, s) && HasIntent(env, s)
    ensures KeepsGoal(env, s, Machine(Converted(env, s), Begin)) && !HasIntent(env, Converted(env, s))
  {
    var child, intent := s.store.children[env.key], s.store.children[env.key].pendingDownload.value;
    var freed := child.(pendingDownload := None, pendingDeletion := Some(intent.DeletionReceipt()));
    assert Converted(env, s) ==
             s.(store := s.store.(children := s.store.children[env.key := freed]), next := s.next + 1);
  }

  lemma BeginKeeps(env: Env, s: Persistent)
    requires Facts(env, s) && Local(env, s)
    ensures KeepsGoal(env, s, BeginStep(env, s))
    ensures BeginStep(env, s).point.Begin? ==>
              !HasIntent(env, BeginStep(env, s).disk)
                && (HasIntent(env, s) || (Abandoned(env, s) && !Abandoned(env, BeginStep(env, s).disk)))
  {
    if HasIntent(env, s) {
      ConvertKeeps(env, s);
    } else if !InProgress(env, s) {
      BeginElsewhere(env, s);
    } else if Abandoned(env, s) {
      RecoverKeeps(env, s);
    } else if s.store.children[env.key].pendingDeletion.None? {
      BeginAttached(env, s);
    }
  }

  // ---- whole runs ----

  lemma GivingKeeps(env: Env, s: Persistent, p: Parent, before: ParentStatus)
    requires Facts(env, s) && Local(env, s) && PointOk(env, s, Giving(p, before))
    ensures KeepsGoal(env, s, Advance(env, Machine(s, Giving(p, before))))
  {
    ReleaseSettles(env, s, s.store.children[env.key].pendingDeletion.value, p);
  }

  /** How far a run is from its end. */
  function Distance(env: Env, m: Machine): nat {
    match m.point
    case Begin =>
      if HasIntent(env, m.disk) then 9 else if InProgress(env, m.disk) && Abandoned(env, m.disk) then 8 else 7
    case Resuming(receipt) => if receipt.uid == env.uid then 5 else 6
    case Owning(_, _) => 4
    case ChildUnlinked(_, _) => 3
    case Emptied(_, _) => 2
    case Giving(_, _) => 2
    case Cleaned => 1
    case Finished => 0
  }

  lemma AdvanceIsGood(env: Env, m: Machine)
    requires Facts(env, m.disk) && Local(env, m.disk) && PointOk(env, m.disk, m.point)
    ensures KeepsGoal(env, m.disk, Advance(env, m))
    ensures m.point != Finished ==> Distance(env, Advance(env, m)) < Distance(env, m)
  {
    match m.point
    case Begin => BeginKeeps(env, m.disk);
    case Resuming(receipt) =>
      if receipt.uid == env.uid { OwnKeeps(env, m.disk, receipt); } else { ClaimKeeps(env, m.disk, receipt); }
    case Owning(receipt, lookup) =>
      if env.kept { CleanKeeps(env, m.disk, receipt, lookup); } else { UnlinkKeeps(env, m.disk, receipt, lookup); }
    case ChildUnlinked(receipt, lookup) => CleanKeeps(env, m.disk, receipt, lookup);
    case Emptied(receipt, parent) => EmptiedKeeps(env, m.disk, receipt, parent);
    case Giving(parent, before) => GivingKeeps(env, m.disk, parent, before);
    case Cleaned => FinishKeeps(env, m.disk);
    case Finished =>
  }

  /** The repository mutation a step makes, if any. */
  function Mutation(env: Env, m: Machine): Option<Op> {
    var s, t := m.disk, Advance(env, m);
    match m.point
    case Begin =>
      if HasIntent(env, s) then
        Some(BeginDownloadDeletion(env.key, env.uid, s.store.children[env.key].pendingDownload.value, false,
                                   env.current))
      else if t.point.Begin? then
        if InProgress(env, s) && Abandoned(env, s)
        then Some(Release(env.id, s.store.parents[env.id],
                          if s.marker == Wrote(s.store.parents[env.id].lockId) then Ready else Updating))
        else None
      else if InProgress(env, s) && s.store.children[env.key].pendingDeletion.None? && env.id in s.store.parents
      then Some(RemoveReference(env.id, s.store.parents[env.id], env.key, env.uid, env.path, true, false))
      else None
    case Resuming(receipt) =>
      if t.point.Owning? then Some(OwnDeletion(env.key, receipt, !s.present, false))
      else if t.point.Resuming? then Some(Claim(env.key, env.uid, receipt, !s.present, env.current))
      else None
    case Owning(receipt, lookup) =>
      if env.kept && OwnsDeletion(receipt, lookup) && Keeps(env, s)
      then Some(Release(env.id, lookup.parent, ReleaseTarget(receipt.StatusBeforeDeletion(), s.marker != NoMarker)))
      else None
    case ChildUnlinked(receipt, lookup) =>
      if OwnsDeletion(receipt, lookup) && Keeps(env, s)
      then Some(Release(env.id, lookup.parent, ReleaseTarget(receipt.StatusBeforeDeletion(), s.marker != NoMarker)))
      else None
    case Emptied(_, parent) => Some(DeleteParent(env.id, parent))
    case Giving(parent, before) => Some(Release(env.id, parent, ReleaseTarget(before, s.marker != NoMarker)))
    case Cleaned => Some(Remove(env.key, env.uid))
    case Finished => None
  }

  /** Each step writes the records at most once, through a repository mutation. */
  lemma AdvanceWrites(env: Env, m: Machine)
    ensures var t := Advance(env, m).disk;
            World(t.store, t.next) == match Mutation(env, m)
                                      case None => World(m.disk.store, m.disk.next)
                                      case Some(op) => Step(World(m.disk.store, m.disk.next), op)
  {
  }

  lemma AdvanceKeepsInv(env: Env, m: Machine)
    requires Inv(World(m.disk.store, m.disk.next))
    ensures Inv(World(Advance(env, m).disk.store, Advance(env, m).disk.next))
  {
    AdvanceWrites(env, m);
    if Mutation(env, m).Some? { StepKeepsInv(World(m.disk.store, m.disk.next), Mutation(env, m).value); }
  }

  lemma AdvanceKeeps(env: Env, m: Machine)
    requires Valid(env, m)
    ensures Valid(env, Advance(env, m)) && Target(env, Advance(env, m).disk) == Target(env, m.disk)
    ensures m.point != Finished ==> Distance(env, Advance(env, m)) < Distance(env, m)
  {
    InvGivesFacts(env, m.disk);
    AdvanceIsGood(env, m);
    AdvanceKeepsInv(env, m);
  }

  /** Steps, crashes and half-done removals all keep the deletion sound and its goal unmoved. */
  lemma PlayKeeps(env: Env, m: Machine, move: Move)
    requires Valid(env, m)
    ensures Valid(env, Play(env, m, move)) && Target(env, Play(env, m, move).disk) == Target(env, m.disk)
  {
    match move
    case Go => AdvanceKeeps(env, m);
    case Crash =>
    case CrashRemoving(survives) =>
      if m.point.ChildUnlinked? && OwnsDeletion(m.point.receipt, m.point.lookup) && !Keeps(env, m.disk) {
        InvGivesFacts(env, m.disk);
        RemoveSettles(env, m.disk, m.point.receipt, m.point.lookup.parent,
                      if survives then m.disk.marker else NoMarker);
      }
  }

  function PlayAll(env: Env, m: Machine, moves: seq<Move>): Machine {
    if moves == [] then m else Play(env, PlayAll(env, m, moves[..|moves| - 1]), moves[|moves| - 1])
  }

  lemma {:induction false} PlayAllKeeps(env: Env, m: Machine, moves: seq<Move>)
    requires Valid(env, m)
    ensures Valid(env, PlayAll(env, m, moves)) && Target(env, PlayAll(env, m, moves).disk) == Target(env, m.disk)
  {
    if moves != [] {
      PlayAllKeeps(env, m, moves[..|moves| - 1]);
      PlayKeeps(env, PlayAll(env, m, moves[..|moves| - 1]), moves[|moves| - 1]);
    }
  }

  /**
   However often the deletion was stopped and started again, once it finishes the model's record is gone
   and all other records and files are those of the goal, which the first state determines.
   */
  lemma EveryFinishIsTheSame(env: Env, m: Machine, moves: seq<Move>)
    requires Valid(env, m) && PlayAll(env, m, moves).point == Finished
    ensures Summary(env, PlayAll(env, m, moves).disk) == Target(env, m.disk)
    ensures env.key !in PlayAll(env, m, moves).disk.store.children
  {
    PlayAllKeeps(env, m, moves);
  }

  function Uninterrupted(n: nat): seq<Move> {
    seq(n, _ => Go)
  }

  lemma {:induction false} GoesOn(env: Env, m: Machine, n: nat)
    requires Valid(env, m)
    ensures Valid(env, PlayAll(env, m, Uninterrupted(n)))
    ensures n <= Distance(env, m) ==> Distance(env, PlayAll(env, m, Uninterrupted(n))) <= Distance(env, m) - n
  {
    PlayAllKeeps(env, m, Uninterrupted(n));
    if n > 0 {
      GoesOn(env, m, n - 1);
      assert Uninterrupted(n)[..n - 1] == Uninterrupted(n - 1);
      AdvanceKeeps(env, PlayAll(env, m, Uninterrupted(n - 1)));
    }
  }

  /** Left alone, the deletion finishes, from wherever it stands. */
  lemma LeftAloneItFinishes(env: Env, m: Machine)
    requires Valid(env, m)
    ensures PlayAll(env, m, Uninterrupted(Distance(env, m))).point == Finished
  {
    GoesOn(env, m, Distance(env, m));
  }

  /** A further run of a finished deletion writes nothing. */
  lemma FurtherRunChangesNothing(env: Env, s: Persistent)
    requires env.key !in s.store.children
    ensures var again := Advance(env, Advance(env, Machine(s, Begin)));
            again.point == Finished && again.disk == s.(next := again.disk.next)
  {
  }

  // ---- a task that may not act for the model ----

  /** The model's intent or receipt carries a UID this task may not work on. */
  predicate Barred(env: Env, s: Persistent) {
    env.key in s.store.children
      && var child := s.store.children[env.key];
         if child.pendingDownload.Some? then !Entitled(env, child.pendingDownload.value.uid)
         else child.pendingDeletion.Some? && !Entitled(env, child.pendingDeletion.value.uid)
  }

  predicate WaitsOnly(env: Env, m: Machine) {
    Barred(env, m.disk)
      && (m.point.Begin?
          || (m.point.Resuming? && Receipt(env, m.disk) == Some(m.point.receipt) && !HasIntent(env, m.disk)))
  }

  /** Files, references, intents and receipts are as they were. */
  predicate OnlyRecovered(s: Persistent, t: Persistent) {
    && t == s.(store := t.store, next := t.next)
    && t.store.children.Keys == s.store.children.Keys && t.store.parents.Keys == s.store.parents.Keys
    && (forall k :: k in s.store.children ==>
          t.store.children[k] == s.store.children[k].(status := t.store.children[k].status))
    && (forall id :: id in s.store.parents ==> t.store.parents[id].children == s.store.parents[id].children)
  }

  lemma BarredMove(env: Env, m: Machine, move: Move)
    requires Inv(World(m.disk.store, m.disk.next)) && WaitsOnly(env, m)
    ensures WaitsOnly(env, Play(env, m, move)) && OnlyRecovered(m.disk, Play(env, m, move).disk)
    ensures Inv(World(Play(env, m, move).disk.store, Play(env, m, move).disk.next))
  {
    if move.Go? {
      AdvanceKeepsInv(env, m);
      if m.point.Begin? && !HasIntent(env, m.disk) && Abandoned(env, m.disk) { BarredRecovery(env, m.disk); }
    }
  }

  lemma BarredRecovery(env: Env, s: Persistent)
    requires Inv(World(s.store, s.next)) && Abandoned(env, s)
    ensures OnlyRecovered(s, Recovered(env, s))
  {
    var p := s.store.parents[env.id];
    ReleaseEffect(s.store, env.id, p, if s.marker == Wrote(p.lockId) then Ready else Updating);
  }

  /** However long such a task runs, it may free a lock that its owner abandoned, and does nothing else. */
  lemma {:induction false} BarredTaskOnlyRecovers(env: Env, s: Persistent, moves: seq<Move>)
    requires Inv(World(s.store, s.next)) && Barred(env, s)
    ensures var m := PlayAll(env, Machine(s, Begin), moves);
            WaitsOnly(env, m) && OnlyRecovered(s, m.disk) && Inv(World(m.disk.store, m.disk.next))
  {
    if moves != [] {
      var front := moves[..|moves| - 1];
      BarredTaskOnlyRecovers(env, s, front);
      var m := PlayAll(env, Machine(s, Begin), front);
      BarredMove(env, m, moves[|moves| - 1]);
      RecoveredOn(s, m.disk, Play(env, m, moves[|moves| - 1]).disk);
    }
  }

  lemma RecoveredOn(s: Persistent, t: Persistent, u: Persistent)
    requires OnlyRecovered(s, t) && OnlyRecovered(t, u)
    ensures OnlyRecovered(s, u)
  {
  }

  // ---- why lock numbers are left out ----

  /** With the parent gone, finished runs agree in every record. */
  lemma ExactWithoutParent(env: Env, s: Persistent, t: Persistent)
    requires Summary(env, s) == Summary(env, t) && env.key !in s.store.children && env.key !in t.store.children
    requires env.id !in s.store.parents
    ensures s.store == t.store
  {
    assert s.store.children - {env.key} == s.store.children && t.store.children - {env.key} == t.store.children;
    assert s.store.parents - {env.id} == s.store.parents && t.store.parents - {env.id} == t.store.parents;
  }

  /** A rerun takes an unused idle parent over again and gives it back under the new lock. */
  lemma TakenOverAgain(env: Env, s: Persistent, p: Parent)
    requires Facts(env, s) && Local(env, s) && env.kept && InProgress(env, s) && !HasIntent(env, s)
    requires s.store.children[env.key].pendingDeletion.Some?
    requires s.store.children[env.key].pendingDeletion.value.uid == env.uid
    requires env.id in s.store.parents && s.store.parents[env.id] == p && p.lockId == NO_LOCK && p.children == map[]
    ensures var m := Advance(env, Advance(env, Advance(env, Machine(s, Begin))));
            m.point == Cleaned && env.id in m.disk.store.parents && m.disk.store.parents[env.id].lastCompleted == s.next
  {
    var receipt := s.store.children[env.key].pendingDeletion.value;
    assert Advance(env, Machine(s, Begin)) == Machine(s, Resuming(receipt));
    var m := OwnStep(env, s, receipt);
    OwnNew(env, s, receipt, p);
    var owned := p.(status := Updating, lockId := s.next, lastCompleted := NO_LOCK);
    assert m.point.lookup == Found(env.id, owned) && owned.saved == map[];
    ReleasedRecord(m.disk.store, env.id, owned,
                   ReleaseTarget(m.point.receipt.StatusBeforeDeletion(), m.disk.marker != NoMarker));
  }

  /** A crash right after the parent was given back leaves another completed lock ID than no crash. */
  lemma RerunLeavesAnotherNumber(env: Env, s: Persistent, p: Parent, before: ParentStatus)
    requires Valid(env, Machine(s, Giving(p, before)))
    ensures var given := Advance(env, Machine(s, Giving(p, before))).disk;
            var again := Advance(env, Advance(env, Advance(env, Machine(given, Begin)))).disk;
            && env.id in given.store.parents && env.id in again.store.parents
            && given.store.parents[env.id].lastCompleted != again.store.parents[env.id].lastCompleted
  {
    InvGivesFacts(env, s);
    GivingKeeps(env, s, p, before);
    AdvanceKeepsInv(env, Machine(s, Giving(p, before)));
    assert p.saved == map[];
    ReleasedRecord(s.store, env.id, p, ReleaseTarget(before, s.marker != NoMarker));
    var given := Advance(env, Machine(s, Giving(p, before))).disk;
    InvGivesFacts(env, given);
    TakenOverAgain(env, given, given.store.parents[env.id]);
  }
}
