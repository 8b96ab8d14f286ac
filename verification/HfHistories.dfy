/**
 Which repository mutation each step of a handler commits, so that every history of the handlers is
 also a run of mutations, and what that says about the records they create and publish.
 */
module HfHistories {
  import opened HfTypes
  import opened HfRepository
  import opened HfRuns
  import opened HfRepair
  import opened HfProtocol
  import opened HfProtocolProof
  import opened HfSafety

  function WorldOf(sys: Sys): World {
    World(sys.store, sys.next)
  }

  /** The step from `a` to `b` commits this mutation, or leaves the ConfigMap alone. */
  predicate Projects(a: Sys, b: Sys, op: Option<Op>) {
    match op
    case Some(o) => WorldOf(b) == Step(WorldOf(a), o)
    case None => WorldOf(b) == WorldOf(a)
  }

  // ---- the mutation of each step ----

  function RememberOp(sys: Sys, id: Identity, blocked: bool): Option<Op> {
    if id in sys.active && sys.active[id].pc.Read? then
      var task := sys.active[id];
      if RememberDownload(sys.store, id, task.parent.localPath, task.key, task.uid, task.path, blocked).Done?
      then Some(Remember(id, task.parent.localPath, task.key, task.uid, task.path, blocked))
      else None
    else None
  }

  function ReuseOp(sys: Sys, id: Identity): Option<Op> {
    if id in sys.active && (sys.active[id].pc == Remembered(true) || sys.active[id].pc == Reuse) then
      var task := sys.active[id];
      if task.parent.status == Updating && MarkerMatches(sys, id, task.parent.lockId)
        && SetStatus(sys.store, id, task.parent, Ready).Done?
      then Some(Release(id, task.parent, Ready))
      else None
    else None
  }

  function AcquireOp(sys: Sys, id: Identity, repair: bool): Option<Op> {
    if MayAcquire(sys, id, repair) && TryAcquireLock(sys.store, id, sys.active[id].parent, repair, sys.next).Done?
    then Some(Acquire(id, sys.active[id].parent, repair))
    else None
  }

  function AcquiringOp(sys: Sys, a: Action): Option<Op>
    requires IsAcquiring(a)
  {
    match a
    case ARememberIntent(id, blocked) => RememberOp(sys, id, blocked)
    case AAcquire(id, repair) => AcquireOp(sys, id, repair)
    case AAcquireLost(id, repair) => if MayAcquire(sys, id, repair)
      then Some(Acquire(id, sys.active[id].parent, repair)) else None
    case AReuseParent(id) => ReuseOp(sys, id)
    case _ => None
  }

  function AttachingOp(sys: Sys, a: Action): Option<Op>
    requires IsAttaching(a)
  {
    if a.id !in sys.active then None
    else
      var task := sys.active[a.id];
      match a
      case AFailAttached(id) =>
        if task.pc.Corrupt? && MarkChildrenFailed(sys.store, id, task.parent).Done?
        then Some(FailChildren(id, task.parent)) else None
      case APublishReady(id) =>
        if task.pc.Marked? && SetStatus(sys.store, id, task.parent, Ready).Done?
        then Some(Release(id, task.parent, Ready)) else None
      case AGiveUp(id, interrupted, commits, heard) =>
        if HoldsWorkLock(task.pc) && commits
        then Some(Release(id, task.parent, if interrupted then Updating else Failed)) else None
      case AReference(id, blocked) =>
        if task.pc.Linked? then Some(AddReference(id, task.parent, task.key, task.uid, task.path, blocked)) else None
      case _ => None
  }

  function DetachOp(sys: Sys, id: Identity, preserve: bool, retain: bool, blocked: bool): Option<Op> {
    if At(sys, id, Start) && id in sys.store.parents && !sys.store.parents[id].BlocksNewOperation() then
      var task, parent := sys.active[id], sys.store.parents[id];
      var pending := !preserve || retain;
      var outcome :=
        RemoveModelReference(sys.store, id, parent, task.key, task.uid, task.path, pending, blocked, sys.next);
      if outcome.Done? && outcome.result.removed
      then Some(RemoveReference(id, parent, task.key, task.uid, task.path, pending, blocked))
      else None
    else None
  }

  function ClaimOp(sys: Sys, id: Identity, proven: bool): Option<Op> {
    if At(sys, id, Deleting) then
      var task, absent := sys.active[id], !DirOf(sys, id).present;
      if ClaimPendingDeletion(sys.store, task.key, task.uid, task.receipt, absent, proven).Done?
      then Some(Claim(task.key, task.uid, task.receipt, absent, proven))
      else None
    else None
  }

  function OwnOp(sys: Sys, id: Identity, blocked: bool): Option<Op> {
    if At(sys, id, Deleting) then
      var task, absent := sys.active[id], !DirOf(sys, id).present;
      if DeletionParent(sys.store, task.key, task.receipt, absent, blocked, sys.next).Done?
      then Some(OwnDeletion(task.key, task.receipt, absent, blocked))
      else None
    else None
  }

  /** The status the parent had before this deletion took it over, where the step gives the parent back. */
  function GivesBack(sys: Sys, a: Action): Option<ParentStatus>
    requires a.AKeepForConsumer? || a.AKeepForOthers? || a.AGiveBack?
  {
    if a.id !in sys.active then None
    else
      var task := sys.active[a.id];
      var before := task.receipt.StatusBeforeDeletion();
      if a.AKeepForConsumer? then
        if task.pc.DeletionOwned? && OwnsUnreferenced(task, task.pc.found) then Some(before) else None
      else if a.AKeepForOthers? then
        if (task.pc.Unlinked? && OwnsUnreferenced(task, task.pc.found)) || task.pc.Scanned? then Some(before) else None
      else if task.pc.Preserving? then Some(task.pc.before)
      else None
  }

  function GiveBackOp(sys: Sys, a: Action): Option<Op>
    requires a.AKeepForConsumer? || a.AKeepForOthers? || a.AGiveBack?
  {
    var before := GivesBack(sys, a);
    if before.Some? && a.commits
    then Some(Release(a.id, sys.active[a.id].parent, ReleaseTarget(before.value, MarkerExists(sys, a.id))))
    else None
  }

  function ReleasingOp(sys: Sys, a: Action): Option<Op>
    requires IsReleasing(a)
  {
    match a
    case AResumeReceipt(_) => None
    case ADetach(id, preserve, retain, blocked) => DetachOp(sys, id, preserve, retain, blocked)
    case AClaimReceipt(id, proven) => ClaimOp(sys, id, proven)
    case AOwnParent(id, blocked) => OwnOp(sys, id, blocked)
    case _ => GiveBackOp(sys, a)
  }

  function RemovingOp(sys: Sys, a: Action): Option<Op>
    requires IsRemoving(a)
  {
    if a.id !in sys.active then None
    else
      var task := sys.active[a.id];
      match a
      case ADeleteRecord(id) => if task.pc.Removed? then Some(DeleteParent(id, task.parent)) else None
      case AFinishReceipt(id, blocked) => if task.pc.DeletionDone?
        then Some(FinishDeletion(task.key, task.receipt, blocked)) else None
      case AAbandonIntent(id, intent, blocked, proven) =>
        if task.pc.Start? && intent.identity == id
        then Some(BeginDownloadDeletion(task.key, task.uid, intent, blocked, proven)) else None
      case _ => None
  }

  function CommonOp(sys: Sys, a: Action): Option<Op> {
    match a
    case ARetryRelease(id, pending) =>
      if At(sys, id, Start) && pending in sys.releases && pending.id == id
      then Some(Release(id, Blank(sys.root, id).(lockId := pending.lock), if pending.interrupted then Updating
                        else Failed))
      else None
    case AFinishFromMarker(id) =>
      if At(sys, id, Start) && id in sys.store.parents && MarkerMatches(sys, id, sys.store.parents[id].lockId)
      then Some(Release(id, sys.store.parents[id], Ready))
      else None
    case ARecoverInterrupted(id, expected) =>
      if At(sys, id, Start) && expected.lockId != NO_LOCK && !MarkerMatches(sys, id, expected.lockId)
        && !OwnedByReceipt(sys.store, expected.lockId)
      then Some(Release(id, expected, Updating))
      else None
    case AModelWrite(op) => if IsModelWrite(op) then Some(op) else None
    case _ => None
  }

  /** The mutation this step commits, if any. */
  function Committed(sys: Sys, a: Action): Option<Op> {
    if IsAcquiring(a) then AcquiringOp(sys, a)
    else if IsAttaching(a) then AttachingOp(sys, a)
    else if IsFilling(a) then None
    else if IsReleasing(a) then ReleasingOp(sys, a)
    else if IsRemoving(a) then RemovingOp(sys, a)
    else CommonOp(sys, a)
  }

  // ---- every step does what its mutation says ----

  lemma RememberProjects(sys: Sys, id: Identity, blocked: bool)
    ensures Projects(sys, RememberIntent(sys, id, blocked), RememberOp(sys, id, blocked))
  {
  }

  lemma AcquireProjects(sys: Sys, id: Identity, repair: bool)
    ensures Projects(sys, AcquireParent(sys, id, repair), AcquireOp(sys, id, repair))
  {
  }

  lemma ReuseProjects(sys: Sys, id: Identity)
    ensures Projects(sys, ReuseParent(sys, id), ReuseOp(sys, id))
  {
  }

  lemma AcquiringProjects(sys: Sys, a: Action)
    requires IsAcquiring(a)
    ensures Projects(sys, AcquiringAct(sys, a), AcquiringOp(sys, a))
  {
    match a
    case ARememberIntent(id, blocked) => RememberProjects(sys, id, blocked);
    case AAcquire(id, repair) => AcquireProjects(sys, id, repair);
    case AReuseParent(id) => ReuseProjects(sys, id);
    case _ =>
  }

  lemma AttachingProjects(sys: Sys, a: Action)
    requires IsAttaching(a)
    ensures Projects(sys, AttachingAct(sys, a), AttachingOp(sys, a))
  {
  }

  lemma FillingProjects(sys: Sys, a: Action)
    requires IsFilling(a)
    ensures Projects(sys, FillingAct(sys, a), None)
  {
  }

  lemma DetachProjects(sys: Sys, id: Identity, preserve: bool, retain: bool, blocked: bool)
    ensures Projects(sys, Detach(sys, id, preserve, retain, blocked), DetachOp(sys, id, preserve, retain, blocked))
  {
  }

  lemma ClaimProjects(sys: Sys, id: Identity, proven: bool)
    ensures Projects(sys, ClaimReceipt(sys, id, proven), ClaimOp(sys, id, proven))
  {
  }

  lemma OwnProjects(sys: Sys, id: Identity, blocked: bool)
    ensures Projects(sys, OwnParent(sys, id, blocked), OwnOp(sys, id, blocked))
  {
  }

  lemma ReleaseDeletionProjects(sys: Sys, id: Identity, before: ParentStatus, commits: bool, heard: bool)
    requires id in sys.active
    ensures Projects(sys, ReleaseDeletion(sys, id, before, commits, heard),
                     if commits then Some(Release(id, sys.active[id].parent,
                                                  ReleaseTarget(before, MarkerExists(sys, id)))) else None)
  {
  }

  lemma GiveBackProjects(sys: Sys, a: Action)
    requires a.AKeepForConsumer? || a.AKeepForOthers? || a.AGiveBack?
    ensures Projects(sys, ReleasingAct(sys, a), GiveBackOp(sys, a))
  {
    var before := GivesBack(sys, a);
    if before.Some? { ReleaseDeletionProjects(sys, a.id, before.value, a.commits, a.heard); }
  }

  lemma ResumeProjects(sys: Sys, id: Identity)
    ensures Projects(sys, ResumeReceipt(sys, id), None)
  {
  }

  lemma TakingOverProjects(sys: Sys, a: Action)
    requires a.AResumeReceipt? || a.ADetach? || a.AClaimReceipt? || a.AOwnParent?
    ensures Projects(sys, ReleasingAct(sys, a), ReleasingOp(sys, a))
  {
    match a
    case AResumeReceipt(id) => ResumeProjects(sys, id);
    case ADetach(id, preserve, retain, blocked) => DetachProjects(sys, id, preserve, retain, blocked);
    case AClaimReceipt(id, proven) => ClaimProjects(sys, id, proven);
    case AOwnParent(id, blocked) => OwnProjects(sys, id, blocked);
  }

  lemma ReleasingProjects(sys: Sys, a: Action)
    requires IsReleasing(a)
    ensures Projects(sys, ReleasingAct(sys, a), ReleasingOp(sys, a))
  {
    if a.AKeepForConsumer? || a.AKeepForOthers? || a.AGiveBack? {
      GiveBackProjects(sys, a);
    } else {
      TakingOverProjects(sys, a);
    }
  }

  lemma RemovingProjects(sys: Sys, a: Action)
    requires IsRemoving(a)
    ensures Projects(sys, RemovingAct(sys, a), RemovingOp(sys, a))
  {
  }

  lemma CommonProjects(sys: Sys, a: Action)
    requires !IsAcquiring(a) && !IsAttaching(a) && !IsFilling(a) && !IsReleasing(a) && !IsRemoving(a)
    ensures Projects(sys, CommonAct(sys, a), CommonOp(sys, a))
  {
  }

  /** Every step leaves the ConfigMap as its one mutation leaves it. */
  lemma ActProjects(sys: Sys, a: Action)
    ensures Projects(sys, Act(sys, a), Committed(sys, a))
  {
    if IsAcquiring(a) {
      AcquiringProjects(sys, a);
    } else if IsAttaching(a) {
      AttachingProjects(sys, a);
    } else if IsFilling(a) {
      FillingProjects(sys, a);
    } else if IsReleasing(a) {
      ReleasingProjects(sys, a);
    } else if IsRemoving(a) {
      RemovingProjects(sys, a);
    } else {
      CommonProjects(sys, a);
    }
  }

  // ---- when callers do their duty ----

  /**
   A repair acquires a record that was deleted after the task had read it, before it took the parent
   lock, with children.
   */
  predicate StaleRepair(sys: Sys, a: Action) {
    && (a.AAcquire? || a.AAcquireLost?) && a.repair && MayAcquire(sys, a.id, true)
    && a.id !in sys.store.parents && sys.active[a.id].parent.children != map[]
  }

  /** The duties of `HfRuns.Allowed` are met, those of `HfRuns.Legal` except by a stale repair. */
  predicate DutyMet(sys: Sys, a: Action, op: Op) {
    Allowed(WorldOf(sys), op) && (Legal(WorldOf(sys), op) <==> !StaleRepair(sys, a))
  }

  lemma AcquiredMeetsDuty(sys: Sys, a: Action)
    requires (a.AAcquire? || a.AAcquireLost?) && ViewOk(ViewOf(sys, a.id)) && MayAcquire(sys, a.id, a.repair)
    ensures DutyMet(sys, a, Acquire(a.id, sys.active[a.id].parent, a.repair))
  {
    assert TaskOk(ViewOf(sys, a.id), sys.active[a.id]);
  }

  lemma AcquiringMeetsDuty(sys: Sys, a: Action)
    requires IsAcquiring(a) && ViewOk(ViewOf(sys, a.id)) && AcquiringOp(sys, a).Some?
    ensures DutyMet(sys, a, AcquiringOp(sys, a).value)
  {
    if a.AAcquire? || a.AAcquireLost? { AcquiredMeetsDuty(sys, a); }
  }

  lemma AttachingMeetsDuty(sys: Sys, a: Action)
    requires IsAttaching(a) && AttachingOp(sys, a).Some?
    ensures DutyMet(sys, a, AttachingOp(sys, a).value)
  {
  }

  lemma ReleasingMeetsDuty(sys: Sys, a: Action)
    requires IsReleasing(a) && ReleasingOp(sys, a).Some?
    ensures DutyMet(sys, a, ReleasingOp(sys, a).value)
  {
  }

  lemma CommonMeetsDuty(sys: Sys, a: Action)
    requires CommonOp(sys, a).Some?
    ensures DutyMet(sys, a, CommonOp(sys, a).value)
  {
  }

  lemma CommittedMeetsDuty(sys: Sys, a: Action)
    requires Committed(sys, a).Some? && (IsAcquiring(a) ==> ViewOk(ViewOf(sys, a.id)))
    ensures DutyMet(sys, a, Committed(sys, a).value)
  {
    if IsAcquiring(a) {
      AcquiringMeetsDuty(sys, a);
    } else if IsAttaching(a) {
      AttachingMeetsDuty(sys, a);
    } else if IsReleasing(a) {
      ReleasingMeetsDuty(sys, a);
    } else if !IsRemoving(a) {
      CommonMeetsDuty(sys, a);
    }
  }

  /**
   In every history each mutation a handler commits meets what `HfRuns.Legal` asks of the repository's
   callers, if and only if it is not a stale repair.
   */
  lemma HandlersMeetDutyIff(h: History, n: nat)
    requires h.Valid() && SysInv(h.states[0]) && n < |h.actions|
    ensures Projects(h.states[n], h.states[n + 1], Committed(h.states[n], h.actions[n]))
    ensures Committed(h.states[n], h.actions[n]).Some? ==>
              DutyMet(h.states[n], h.actions[n], Committed(h.states[n], h.actions[n]).value)
  {
    HistoryKeepsInv(h, n);
    assert h.Linked(n);
    ActProjects(h.states[n], h.actions[n]);
    if Committed(h.states[n], h.actions[n]).Some? {
      if IsAcquiring(h.actions[n]) { SysInvGivesCtx(h.states[n], h.actions[n].id); }
      CommittedMeetsDuty(h.states[n], h.actions[n]);
    }
  }

  lemma OnlyAcquiringCreates(w: World, op: Op, id: Identity)
    requires Sane(w) && id !in w.store.parents && id in Step(w, op).store.parents
    ensures op.Acquire? && op.id == id && Step(w, op).store.parents[id].children == op.expected.children
  {
    if op.Release? {
      ReleaseEffect(w.store, op.id, op.expected, op.status);
    } else if op.FailChildren? {
      FailChildrenEffect(w.store, op.id, op.expected);
    }
  }

  lemma OnlyTheseAcquire(sys: Sys, a: Action)
    requires Committed(sys, a).Some? && Committed(sys, a).value.Acquire?
    ensures (a.AAcquire? || a.AAcquireLost?) && MayAcquire(sys, a.id, a.repair)
    ensures Committed(sys, a).value == Acquire(a.id, sys.active[a.id].parent, a.repair)
  {
    if IsReleasing(a) {
      ReleasingNeverAcquires(sys, a);
    }
  }

  lemma ReleasingNeverAcquires(sys: Sys, a: Action)
    requires IsReleasing(a) && ReleasingOp(sys, a).Some?
    ensures !ReleasingOp(sys, a).value.Acquire?
  {
  }

  /** In every history a new parent record lists children if and only if a stale repair created it. */
  lemma NewRecordsListChildrenIff(h: History, n: nat, id: Identity)
    requires h.Valid() && SysInv(h.states[0]) && n < |h.actions|
    requires id !in h.states[n].store.parents && id in h.states[n + 1].store.parents
    ensures id in h.states[n].active
    ensures h.states[n + 1].store.parents[id].children == h.states[n].active[id].parent.children
    ensures h.states[n + 1].store.parents[id].children != map[] <==> StaleRepair(h.states[n], h.actions[n])
  {
    var sys, a := h.states[n], h.actions[n];
    HandlersMeetDutyIff(h, n);
    HistoryKeepsInv(h, n);
    OnlyAcquiringCreates(WorldOf(sys), Committed(sys, a).value, id);
    OnlyTheseAcquire(sys, a);
    SysInvGivesCtx(sys, id);
    assert TaskOk(ViewOf(sys, id), sys.active[id]);
  }

  /**
   The four steps of such a repair: with the record gone, it takes the lock, reads, remembers its intent,
   acquires.
   */
  function StaleRepairSteps(sys: Sys, id: Identity, key: ModelKey, uid: Uid, path: Path, seen: Parent): seq<Sys> {
    var a := Begin(sys, id, key, uid, path, seen);
    var b := ReadParent(a, id);
    var c := RememberIntent(b, id, false);
    [a, b, c, AcquireParent(c, id, true)]
  }

  lemma StaleReading(sys: Sys, id: Identity, key: ModelKey, uid: Uid, path: Path, seen: Parent)
    requires id !in sys.store.parents && id !in sys.active && Plausible(Blank(sys.root, id), seen)
    ensures var b := ReadParent(Begin(sys, id, key, uid, path, seen), id);
            && b.store == sys.store && id in b.active && b.active[id].pc == Read(false)
            && b.active[id].parent == seen && b.active[id].key == key
  {
  }

  lemma StaleRemembering(sys: Sys, id: Identity)
    requires id in sys.active && sys.active[id].pc == Read(false)
    requires sys.active[id].key in sys.store.children && IsFree(sys.store.children[sys.active[id].key])
    ensures var b, key := RememberIntent(sys, id, false), sys.active[id].key;
            && b.store.parents == sys.store.parents && id in b.active && b.active[id].pc == Remembered(false)
            && b.active[id].parent == sys.active[id].parent
            && key in b.store.children && b.store.children[key].parentKey.None?
            && b.store.children == sys.store.children[key := b.store.children[key]]
  {
  }

  lemma StaleAcquiring(sys: Sys, id: Identity)
    requires id in sys.active && sys.active[id].pc == Remembered(false) && id !in sys.store.parents
    requires CanonicalPath(id, sys.active[id].parent.localPath)
    ensures var t := AcquireParent(sys, id, true).store;
            && id in t.parents && t.parents[id].children == sys.active[id].parent.children
            && t.children == sys.store.children
  {
  }

  lemma StaleRepairStore(sys: Sys, id: Identity, key: ModelKey, uid: Uid, path: Path, seen: Parent)
    requires id !in sys.store.parents && id !in sys.active && Plausible(Blank(sys.root, id), seen)
    requires key in sys.store.children && IsFree(sys.store.children[key])
    ensures var t := StaleRepairSteps(sys, id, key, uid, path, seen)[3].store;
            && id in t.parents && t.parents[id].children == seen.children
            && key in t.children && t.children[key].parentKey.None?
            && t.children == sys.store.children[key := t.children[key]]
  {
    var steps := StaleRepairSteps(sys, id, key, uid, path, seen);
    StaleReading(sys, id, key, uid, path, seen);
    StaleRemembering(steps[1], id);
    StaleAcquiring(steps[2], id);
  }

  /**
   Nothing stands in its way: from every state without the record, and every record the task may have
   read before, the repair creates a record listing exactly the children that were read.
   */
  lemma StaleRepairGoesThrough(sys: Sys, id: Identity, key: ModelKey, uid: Uid, path: Path, seen: Parent)
    requires SysInv(sys) && id !in sys.store.parents && id !in sys.active && Plausible(Blank(sys.root, id), seen)
    requires key in sys.store.children && IsFree(sys.store.children[key])
    ensures var t := StaleRepairSteps(sys, id, key, uid, path, seen)[3].store;
            && id in t.parents && t.parents[id].children == seen.children
            && (TwoSided(t) ==> seen.children == map[])
  {
    var t := StaleRepairSteps(sys, id, key, uid, path, seen)[3].store;
    StaleRepairStore(sys, id, key, uid, path, seen);
    forall k ensures !Names(t, id, k) {
      assert Names(sys.store, id, k) ==> Lists(sys.store, id, k);
    }
    if seen.children != map[] {
      var k :| k in seen.children;
      assert Lists(t, id, k) && !Names(t, id, k);
    }
  }

  /**
   Such a record was stored before: whenever a parent had children at one point of a history and its
   record is gone at a later one, a task that read it in between, for a model without relationships of
   its own, creates a one-sided record.
   */
  lemma StaleRepairBreaksReferences(h: History, i: nat, n: nat, id: Identity, key: ModelKey, uid: Uid, path: Path)
    requires h.Valid() && SysInv(h.states[0]) && i <= n < |h.states|
    requires id in h.states[i].store.parents && h.states[i].store.parents[id].children != map[]
    requires id !in h.states[n].store.parents && id !in h.states[n].active
    requires key in h.states[n].store.children && IsFree(h.states[n].store.children[key])
    ensures var seen := h.states[i].store.parents[id];
            !TwoSided(StaleRepairSteps(h.states[n], id, key, uid, path, seen)[3].store)
  {
    HistoryKeepsInv(h, i);
    HistoryKeepsInv(h, n);
    SameRoot(h, i, n);
    StoredIsPlausible(h.states[i], id);
    StaleRepairGoesThrough(h.states[n], id, key, uid, path, h.states[i].store.parents[id]);
  }

  lemma AcquiringKeepsRoot(sys: Sys, a: Action)
    requires IsAcquiring(a)
    ensures AcquiringAct(sys, a).root == sys.root
  {
  }

  lemma AttachingKeepsRoot(sys: Sys, a: Action)
    requires IsAttaching(a)
    ensures AttachingAct(sys, a).root == sys.root
  {
  }

  lemma FillingKeepsRoot(sys: Sys, a: Action)
    requires IsFilling(a)
    ensures FillingAct(sys, a).root == sys.root
  {
  }

  lemma ReleaseKeepsRoot(sys: Sys, id: Identity, before: ParentStatus, commits: bool, heard: bool)
    requires id in sys.active
    ensures ReleaseDeletion(sys, id, before, commits, heard).root == sys.root
  {
  }

  lemma TakingOverKeepsRoot(sys: Sys, id: Identity, preserve: bool, retain: bool, flag: bool)
    ensures Detach(sys, id, preserve, retain, flag).root == sys.root
    ensures ClaimReceipt(sys, id, flag).root == sys.root && OwnParent(sys, id, flag).root == sys.root
  {
  }

  lemma ReleasingKeepsRoot(sys: Sys, a: Action)
    requires IsReleasing(a)
    ensures ReleasingAct(sys, a).root == sys.root
  {
    if IsGivingBack(a) {
      if GivesBack(sys, a).Some? { ReleaseKeepsRoot(sys, a.id, GivesBack(sys, a).value, a.commits, a.heard); }
    } else if a.ADetach? {
      TakingOverKeepsRoot(sys, a.id, a.preserve, a.retain, a.blocked);
    } else if a.AClaimReceipt? {
      TakingOverKeepsRoot(sys, a.id, false, false, a.proven);
    } else if a.AOwnParent? {
      TakingOverKeepsRoot(sys, a.id, false, false, a.blocked);
    }
  }

  lemma RemovingKeepsRoot(sys: Sys, a: Action)
    requires IsRemoving(a)
    ensures RemovingAct(sys, a).root == sys.root
  {
  }

  lemma {:induction false} SameRoot(h: History, i: nat, n: nat)
    requires h.Valid() && i <= n < |h.states|
    ensures h.states[i].root == h.states[n].root
    decreases n
  {
    if i < n {
      SameRoot(h, i, n - 1);
      assert h.Linked(n - 1);
      var sys, a := h.states[n - 1], h.actions[n - 1];
      if IsAcquiring(a) {
        AcquiringKeepsRoot(sys, a);
      } else if IsAttaching(a) {
        AttachingKeepsRoot(sys, a);
      } else if IsFilling(a) {
        FillingKeepsRoot(sys, a);
      } else if IsReleasing(a) {
        ReleasingKeepsRoot(sys, a);
      } else if IsRemoving(a) {
        RemovingKeepsRoot(sys, a);
      }
    }
  }

  lemma StoredIsPlausible(sys: Sys, id: Identity)
    requires SysInv(sys) && id in sys.store.parents
    ensures Plausible(Blank(sys.root, id), sys.store.parents[id])
  {
    assert ViewOk(ViewOf(sys, id));
  }

  /** The model has no reference, no intent and no receipt. */
  predicate IsFree(c: Child) {
    c.parentKey.None? && c.pendingDownload.None? && c.pendingDeletion.None?
  }

  // ---- whoever publishes Ready presents the stored record ----

  /** The mutation publishes Ready and presents the record as it is stored, with its lock. */
  predicate PresentsStored(s: Store, op: Op) {
    op.Release? && op.status == Ready ==>
      op.id in s.parents && s.parents[op.id] == op.expected && op.expected.status == Updating
        && op.expected.lockId != NO_LOCK
  }

  lemma ReusePresentsStored(sys: Sys, id: Identity)
    requires ViewOk(ViewOf(sys, id)) && ReuseOp(sys, id).Some?
    ensures PresentsStored(sys.store, ReuseOp(sys, id).value) && DirOf(sys, id).files == Whole
  {
    assert TaskOk(ViewOf(sys, id), sys.active[id]);
    MarkerProvesWhole(sys, id, sys.active[id].parent.lockId);
  }

  lemma PublishPresentsStored(sys: Sys, id: Identity)
    requires ViewOk(ViewOf(sys, id)) && At(sys, id, Marked)
    ensures PresentsStored(sys.store, Release(id, sys.active[id].parent, Ready)) && DirOf(sys, id).files == Whole
  {
    assert TaskOk(ViewOf(sys, id), sys.active[id]);
  }

  lemma FinishPresentsStored(sys: Sys, id: Identity)
    requires ViewOk(ViewOf(sys, id)) && id in sys.store.parents && LockShape(sys.store.parents[id])
    requires MarkerMatches(sys, id, sys.store.parents[id].lockId)
    ensures PresentsStored(sys.store, Release(id, sys.store.parents[id], Ready)) && DirOf(sys, id).files == Whole
  {
    MarkerProvesWhole(sys, id, sys.store.parents[id].lockId);
  }

  /** A deletion that gives the parent back owns its record. */
  lemma GivingBackOwns(sys: Sys, a: Action)
    requires (a.AKeepForConsumer? || a.AKeepForOthers? || a.AGiveBack?) && ViewOk(ViewOf(sys, a.id))
    requires GivesBack(sys, a).Some?
    ensures Owns(ViewOf(sys, a.id), sys.active[a.id])
  {
    assert TaskOk(ViewOf(sys, a.id), sys.active[a.id]);
  }

  predicate IsGivingBack(a: Action) {
    a.AKeepForConsumer? || a.AKeepForOthers? || a.AGiveBack?
  }

  /** A step that publishes Ready presents the stored record; unless it ends a deletion, it found a complete copy. */
  predicate PublishesWell(sys: Sys, a: Action, op: Op) {
    op.Release? && op.status == Ready ==>
      && PresentsStored(sys.store, op)
      && (DirOf(sys, op.id).files == Whole
          || (IsGivingBack(a) && a.id == op.id && a.commits && GivesBack(sys, a) == Some(Ready)
              && MarkerExists(sys, op.id)))
  }

  lemma AcquiringPublishesWell(sys: Sys, a: Action)
    requires IsAcquiring(a) && Ctx(sys, a.id) && AcquiringOp(sys, a).Some?
    ensures PublishesWell(sys, a, AcquiringOp(sys, a).value)
  {
    if a.AReuseParent? { ReusePresentsStored(sys, a.id); }
  }

  lemma AttachingPublishesWell(sys: Sys, a: Action)
    requires IsAttaching(a) && Ctx(sys, a.id) && AttachingOp(sys, a).Some?
    ensures PublishesWell(sys, a, AttachingOp(sys, a).value)
  {
    if a.APublishReady? { PublishPresentsStored(sys, a.id); }
  }

  lemma GivingBackPublishesWell(sys: Sys, a: Action)
    requires IsGivingBack(a) && ViewOk(ViewOf(sys, a.id)) && GiveBackOp(sys, a).Some?
    ensures PublishesWell(sys, a, GiveBackOp(sys, a).value)
  {
    GivingBackOwns(sys, a);
  }

  lemma TakingOverNeverReleases(sys: Sys, a: Action)
    requires IsReleasing(a) && !IsGivingBack(a) && ReleasingOp(sys, a).Some?
    ensures !ReleasingOp(sys, a).value.Release?
  {
  }

  lemma ReleasingPublishesWell(sys: Sys, a: Action)
    requires IsReleasing(a) && ViewOk(ViewOf(sys, a.id)) && ReleasingOp(sys, a).Some?
    ensures PublishesWell(sys, a, ReleasingOp(sys, a).value)
  {
    if IsGivingBack(a) {
      GivingBackPublishesWell(sys, a);
    } else {
      TakingOverNeverReleases(sys, a);
    }
  }

  lemma CommonPublishesWell(sys: Sys, a: Action)
    requires CommonOp(sys, a).Some? && (IsTaskAction(a) ==> Ctx(sys, a.id))
    ensures PublishesWell(sys, a, CommonOp(sys, a).value)
  {
    if a.AFinishFromMarker? { FinishPresentsStored(sys, a.id); }
  }

  lemma CommittedPublishesWell(sys: Sys, a: Action)
    requires SysInv(sys) && Committed(sys, a).Some?
    ensures PublishesWell(sys, a, Committed(sys, a).value)
  {
    if IsAcquiring(a) {
      SysInvGivesCtx(sys, a.id);
      AcquiringPublishesWell(sys, a);
    } else if IsAttaching(a) {
      SysInvGivesCtx(sys, a.id);
      AttachingPublishesWell(sys, a);
    } else if IsReleasing(a) {
      assert ViewOk(ViewOf(sys, a.id));
      ReleasingPublishesWell(sys, a);
    } else if !IsRemoving(a) {
      if IsTaskAction(a) { SysInvGivesCtx(sys, a.id); }
      CommonPublishesWell(sys, a);
    }
  }

  // ---- every history is a run ----

  /** The run of mutations behind the first `n` steps. */
  function {:tailrecursion false} RunOf(h: History, n: nat): Run
    requires |h.states| == |h.actions| + 1 && n < |h.states|
  {
    if n == 0 then Run([WorldOf(h.states[0])], [])
    else
      var r := RunOf(h, n - 1);
      match Committed(h.states[n - 1], h.actions[n - 1])
      case Some(op) => Run(r.states + [WorldOf(h.states[n])], r.ops + [op])
      case None => r
  }

  /** The run ends where the history is, and shows no state the history did not go through. */
  ghost predicate Follows(r: Run, h: History, n: nat)
    requires |h.states| == |h.actions| + 1 && n < |h.states|
  {
    && r.states != [] && r.states[0] == WorldOf(h.states[0]) && r.states[|r.states| - 1] == WorldOf(h.states[n])
    && (forall j :: 0 <= j < |r.states| ==> exists i :: 0 <= i <= n && r.states[j] == WorldOf(h.states[i]))
  }

  lemma ExtendedRunIsValid(r: Run, op: Op, w: World)
    requires r.Valid() && OwnersPresentTheirRecord(r)
    requires Next(r.states[|r.states| - 1], op, w) && PresentsStored(r.states[|r.states| - 1].store, op)
    ensures var r' := Run(r.states + [w], r.ops + [op]); r'.Valid() && OwnersPresentTheirRecord(r')
  {
    var r' := Run(r.states + [w], r.ops + [op]);
    forall i ensures r'.Linked(i) { assert r.Linked(i); }
    forall i | 0 <= i < |r'.ops| && r'.ops[i].Release? && r'.ops[i].status == Ready ensures PresentsOwnRecord(r', i) {
      if i < |r.ops| {
        assert PresentsOwnRecord(r, i);
        var k :| 0 <= k <= i && HoldsLock(r.states[k].store, r.ops[i].id, r.ops[i].expected.lockId)
          && r.ops[i].expected.children == r.states[k].store.parents[r.ops[i].id].children;
        assert r'.states[k] == r.states[k];
      } else {
        assert r'.states[i] == r.states[i];
      }
    }
  }

  lemma FollowsOn(r: Run, h: History, n: nat, op: Op)
    requires |h.states| == |h.actions| + 1 && n + 1 < |h.states| && Follows(r, h, n)
    ensures Follows(Run(r.states + [WorldOf(h.states[n + 1])], r.ops + [op]), h, n + 1)
  {
    var states := r.states + [WorldOf(h.states[n + 1])];
    forall j | 0 <= j < |states| ensures exists i :: 0 <= i <= n + 1 && states[j] == WorldOf(h.states[i]) {
      if j < |r.states| {
        var i :| 0 <= i <= n && r.states[j] == WorldOf(h.states[i]);
        assert states[j] == WorldOf(h.states[i]);
      } else {
        assert states[j] == WorldOf(h.states[n + 1]);
      }
    }
  }

  /** The run is legal, its owners present their records, and it follows the history. */
  ghost predicate RunsAlong(r: Run, h: History, n: nat)
    requires |h.states| == |h.actions| + 1 && n < |h.states|
  {
    r.Valid() && OwnersPresentTheirRecord(r) && Follows(r, h, n)
  }

  lemma CommitRunsAlong(r: Run, h: History, n: nat, op: Op)
    requires |h.states| == |h.actions| + 1 && n + 1 < |h.states| && RunsAlong(r, h, n)
    requires Next(WorldOf(h.states[n]), op, WorldOf(h.states[n + 1])) && PresentsStored(h.states[n].store, op)
    ensures RunsAlong(Run(r.states + [WorldOf(h.states[n + 1])], r.ops + [op]), h, n + 1)
  {
    ExtendedRunIsValid(r, op, WorldOf(h.states[n + 1]));
    FollowsOn(r, h, n, op);
  }

  /** No repair among the first `n` steps was stale. */
  ghost predicate NoStaleRepair(h: History, n: nat)
    requires |h.states| == |h.actions| + 1 && n <= |h.actions|
  {
    forall i :: 0 <= i < n ==> !StaleRepair(h.states[i], h.actions[i])
  }

  /** What the mutation of one step is: legal, done, and presenting the stored record if it publishes Ready. */
  lemma StepIsMutation(h: History, n: nat)
    requires h.Valid() && SysInv(h.states[0]) && n < |h.actions| && !StaleRepair(h.states[n], h.actions[n])
    ensures match Committed(h.states[n], h.actions[n])
            case Some(op) =>
              HfRuns.Next(WorldOf(h.states[n]), op, WorldOf(h.states[n + 1])) && PresentsStored(h.states[n].store, op)
            case None => WorldOf(h.states[n + 1]) == WorldOf(h.states[n])
  {
    HandlersMeetDutyIff(h, n);
    HistoryKeepsInv(h, n);
    if Committed(h.states[n], h.actions[n]).Some? { CommittedPublishesWell(h.states[n], h.actions[n]); }
  }

  /**
   Every history of the handlers without stale repairs is a legal run of mutations in which whoever
   publishes Ready presents its own record: what `HfRepair` and `HfRuns` prove of all such runs holds of
   the handlers.
   */
  lemma {:induction false} HistoryIsARun(h: History, n: nat)
    requires h.Valid() && SysInv(h.states[0]) && n < |h.states| && NoStaleRepair(h, n)
    ensures RunsAlong(RunOf(h, n), h, n)
  {
    if n == 0 {
      assert RunOf(h, 0).states[0] == WorldOf(h.states[0]);
    } else {
      HistoryIsARun(h, n - 1);
      StepIsMutation(h, n - 1);
      match Committed(h.states[n - 1], h.actions[n - 1])
      case Some(op) => CommitRunsAlong(RunOf(h, n - 1), h, n - 1, op);
      case None => SameWorldFollows(RunOf(h, n - 1), h, n - 1);
    }
  }

  /** Until a stale repair, references stay two-sided in every history. */
  lemma ReferencesStayTwoSided(h: History, n: nat)
    requires h.Valid() && SysInv(h.states[0]) && n < |h.states| && NoStaleRepair(h, n)
    requires TwoSided(h.states[0].store)
    ensures TwoSided(h.states[n].store)
  {
    HistoryIsARun(h, n);
    var r := RunOf(h, n);
    RunKeepsInv(r, |r.states| - 1);
  }

  lemma SameWorldFollows(r: Run, h: History, n: nat)
    requires |h.states| == |h.actions| + 1 && n + 1 < |h.states| && Follows(r, h, n)
    requires WorldOf(h.states[n + 1]) == WorldOf(h.states[n])
    ensures Follows(r, h, n + 1)
  {
    forall j | 0 <= j < |r.states| ensures exists i :: 0 <= i <= n + 1 && r.states[j] == WorldOf(h.states[i]) {
      var i :| 0 <= i <= n && r.states[j] == WorldOf(h.states[i]);
      assert r.states[j] == WorldOf(h.states[i]);
    }
  }

  /**
   In every history without stale repairs: whenever the parent is Ready, a child attached throughout
   shows what ordinary writes last gave it, however many repairs failed or were interrupted in between.
   */
  lemma HandlersShowIntended(h: History, n: nat, id: Identity, key: ModelKey)
    requires h.Valid() && SysInv(h.states[0]) && TwoSided(h.states[0].store) && n < |h.states| && NoStaleRepair(h, n)
    requires forall i :: 0 <= i <= n ==> Names(h.states[i].store, id, key)
    requires ReadyRecord(h.states[n].store, id)
    ensures key in h.states[n].store.children
    ensures var r := RunOf(h, n);
            && r.Valid()
            && (forall j :: 0 <= j < |r.states| ==> key in r.states[j].store.children)
            && h.states[n].store.children[key].status == Intended(r, key, |r.states| - 1)
  {
    HistoryIsARun(h, n);
    var r := RunOf(h, n);
    forall j | 0 <= j < |r.states| ensures Names(r.states[j].store, id, key) {
      var i :| 0 <= i <= n && r.states[j] == WorldOf(h.states[i]);
    }
    assert Names(h.states[n].store, id, key);
    ReadyShowsIntended(r, id, key, |r.states| - 1);
  }

  // ---- exactly when Ready stands over an incomplete copy ----

  predicate ReadyOverRemains(sys: Sys, id: Identity) {
    ReadyRecord(sys.store, id) && DirOf(sys, id).files != Whole
  }

  /**
   The step commits the end of a deletion of a formerly Ready parent, whose removal was stopped with the
   marker left.
   */
  predicate PublishesRemains(sys: Sys, a: Action, id: Identity) {
    && IsGivingBack(a) && a.id == id && a.commits && GivesBack(sys, a) == Some(Ready)
    && MarkerExists(sys, id) && DirOf(sys, id).files == PartlyRemoved
  }

  lemma OnlyReleasingPublishes(w: World, op: Op, id: Identity)
    requires Sane(w) && !ReadyRecord(w.store, id) && ReadyRecord(Step(w, op).store, id)
    ensures op.Release? && op.status == Ready && op.id == id
  {
    if op.Release? {
      ReleaseEffect(w.store, op.id, op.expected, op.status);
    } else if op.FailChildren? {
      FailChildrenEffect(w.store, op.id, op.expected);
    }
  }

  lemma PublishingLeavesFiles(sys: Sys, a: Action)
    requires Committed(sys, a).Some?
    ensures Act(sys, a).dirs == sys.dirs
  {
    assert !ChangesFiles(a);
    OthersLeaveFiles(sys, a);
  }

  lemma PublishedRemains(h: History, n: nat, id: Identity)
    requires h.Valid() && SysInv(h.states[0]) && n < |h.actions|
    requires !ReadyRecord(h.states[n].store, id) && ReadyOverRemains(h.states[n + 1], id)
    ensures PublishesRemains(h.states[n], h.actions[n], id)
  {
    var sys, a := h.states[n], h.actions[n];
    HistoryKeepsInv(h, n);
    HandlersMeetDutyIff(h, n);
    var op := Committed(sys, a).value;
    OnlyReleasingPublishes(WorldOf(sys), op, id);
    CommittedPublishesWell(sys, a);
    assert h.Linked(n);
    PublishingLeavesFiles(sys, a);
    ReadyIsNeverUnfinished(h, n + 1, id);
  }

  lemma OwnerPublishes(w: World, id: Identity, p: Parent)
    requires id in w.store.parents && w.store.parents[id] == p && CanonicalPath(id, p.localPath)
    requires p.status == Updating && p.lockId != NO_LOCK
    ensures ReadyRecord(Step(w, Release(id, p, Ready)).store, id)
  {
  }

  lemma GivingBackCommits(sys: Sys, a: Action)
    requires IsGivingBack(a) && a.commits && GivesBack(sys, a) == Some(Ready) && MarkerExists(sys, a.id)
    ensures a.id in sys.active && Committed(sys, a) == Some(Release(a.id, sys.active[a.id].parent, Ready))
  {
  }

  lemma GivingBackPublishes(sys: Sys, a: Action, id: Identity)
    requires ViewOk(ViewOf(sys, id)) && PublishesRemains(sys, a, id)
    ensures !ReadyRecord(sys.store, id) && ReadyRecord(Act(sys, a).store, id) && Act(sys, a).dirs == sys.dirs
  {
    GivingBackOwns(sys, a);
    GivingBackCommits(sys, a);
    ActProjects(sys, a);
    OwnerPublishes(WorldOf(sys), id, sys.active[id].parent);
    PublishingLeavesFiles(sys, a);
  }

  /**
   The per-identity condition of `HfSafety.ReadyIsComplete`, exactly, step by step: a step makes a
   record Ready over files that are not a complete copy if and only if it commits the end of a
   deletion of a formerly Ready parent while the marker is there and the files are partly removed.
   */
  lemma ReadyOverRemainsIff(h: History, n: nat, id: Identity)
    requires h.Valid() && SysInv(h.states[0]) && n < |h.actions|
    ensures !ReadyOverRemains(h.states[n], id) && ReadyOverRemains(h.states[n + 1], id)
       <==> PublishesRemains(h.states[n], h.actions[n], id)
  {
    HistoryKeepsInv(h, n);
    assert h.Linked(n);
    assert ViewOk(ViewOf(h.states[n], id));
    if PublishesRemains(h.states[n], h.actions[n], id) {
      GivingBackPublishes(h.states[n], h.actions[n], id);
    } else if !ReadyRecord(h.states[n].store, id) {
      if ReadyOverRemains(h.states[n + 1], id) { PublishedRemains(h, n, id); }
    } else {
      NeighbouringViews(h, n, id);
    }
  }
}
