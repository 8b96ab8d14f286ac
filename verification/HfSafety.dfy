/**
 Safety of whole runs of the handlers: any number of agents, any interleaving of their steps, a crash
 or a lost response at any point.
 */
module HfSafety {
  import opened HfTypes
  import opened HfRepository
  import opened HfRuns
  import opened HfProtocol
  import opened HfProtocolProof

  /** `states[i + 1]` is what `actions[i]` made of `states[i]`. */
  datatype History = History(states: seq<Sys>, actions: seq<Action>)
  {
    ghost predicate Valid() {
      |states| == |actions| + 1 && forall i :: Linked(i)
    }

    predicate Linked(i: int)
      requires |states| == |actions| + 1
    {
      0 <= i < |actions| ==> states[i + 1] == Act(states[i], actions[i])
    }
  }

  /** The invariant can start from any ordinary store before the first shared download. */
  lemma FreshSystemIsFine(root: Path, children: map<ModelKey, Child>, links: map<Path, Identity>)
    requires forall key :: key in children ==>
               children[key].parentKey.None? && children[key].pendingDeletion.None?
                 && children[key].pendingDownload.None?
    ensures SysInv(Sys(root, Store(map[], children), 1, map[], links, map[], {}, map[]))
  {
    var sys := Sys(root, Store(map[], children), 1, map[], links, map[], {}, map[]);
    forall id, key ensures !Lists(sys.store, id, key) && !Names(sys.store, id, key) { }
    forall id ensures ViewOk(ViewOf(sys, id)) { }
  }

  // ---- one step of any handler ----

  ghost predicate KeepingStep(a: Sys, b: Sys, id: Identity) {
    GoodStep(a, b, id) || DeletionStep(a, b, id)
  }

  lemma KeepingStepKeeps(a: Sys, b: Sys, id: Identity)
    requires SysInv(a) && KeepingStep(a, b, id)
    ensures SysInv(b) && ReadyMoves(a.store, b.store)
  {
    if GoodStep(a, b, id) { GoodStepKeeps(a, b, id); } else { DeletionStepKeeps(a, b, id); }
  }

  lemma AcquiringKeeps(sys: Sys, a: Action)
    requires IsAcquiring(a) && Ctx(sys, a.id)
    ensures GoodStep(sys, AcquiringAct(sys, a), a.id)
  {
    match a
    case AReadParent(id) => ReadParentStep(sys, id);
    case ARememberIntent(id, blocked) => RememberIntentKeeps(sys, id, blocked);
    case ACheckInitial(id) => CheckInitialStep(sys, id);
    case AAcquire(id, repair) => AcquireParentKeeps(sys, id, repair);
    case AAcquireLost(id, repair) => AcquireLostKeeps(sys, id, repair);
    case ARecheck(id) => RecheckStep(sys, id);
    case AReuseParent(id) => ReuseParentKeeps(sys, id);
  }

  lemma AttachingKeeps(sys: Sys, a: Action)
    requires IsAttaching(a) && Ctx(sys, a.id)
    ensures GoodStep(sys, AttachingAct(sys, a), a.id)
  {
    match a
    case AFailAttached(id) => FailAttachedKeeps(sys, id);
    case APublishReady(id) => PublishReadyKeeps(sys, id);
    case AGiveUp(id, interrupted, commits, heard) => GiveUpKeeps(sys, id, interrupted, commits, heard);
    case ALink(id) => LinkStep(sys, id);
    case AReference(id, blocked) => ReferenceKeeps(sys, id, blocked);
    case ARollback(id) => RollbackStep(sys, id);
  }

  lemma FillingKeeps(sys: Sys, a: Action)
    requires IsFilling(a) && Ctx(sys, a.id)
    ensures GoodStep(sys, FillingAct(sys, a), a.id)
  {
    match a
    case AResetPartly(id, survives) => ResetPartlyStep(sys, id, survives);
    case AReset(id) => ResetStep(sys, id);
    case AValidate(id, valid) => ValidateStep(sys, id, valid);
    case ACheckUnrecorded(id) => CheckUnrecordedStep(sys, id);
    case ARemoveMarker(id) => RemoveMarkerStep(sys, id);
    case AReplace(id) => ReplaceStep(sys, id);
    case AFinishFetch(id) => FinishFetchStep(sys, id);
    case AWriteMarker(id, torn) => WriteMarkerStep(sys, id, torn);
  }

  lemma ReleasingKeeps(sys: Sys, a: Action)
    requires IsReleasing(a) && Ctx(sys, a.id) && ReceiptsOk(sys.store, sys.issued)
    ensures KeepingStep(sys, ReleasingAct(sys, a), a.id)
  {
    match a
    case AResumeReceipt(id) => ResumeReceiptStep(sys, id);
    case ADetach(id, preserve, retain, blocked) => DetachKeeps(sys, id, preserve, retain, blocked);
    case AClaimReceipt(id, proven) => ClaimReceiptKeeps(sys, id, proven);
    case AOwnParent(id, blocked) => OwnParentKeeps(sys, id, blocked);
    case AKeepForConsumer(id, commits, heard) => KeepForConsumerKeeps(sys, id, commits, heard);
    case AKeepForOthers(id, commits, heard) => KeepForOthersKeeps(sys, id, commits, heard);
    case AGiveBack(id, commits, heard) => GiveBackKeeps(sys, id, commits, heard);
  }

  lemma RemovingKeeps(sys: Sys, a: Action)
    requires IsRemoving(a) && Ctx(sys, a.id)
    ensures GoodStep(sys, RemovingAct(sys, a), a.id)
  {
    match a
    case AUnlink(id) => UnlinkStep(sys, id);
    case AScanLinks(id) => ScanLinksStep(sys, id);
    case AScanIntents(id) => ScanIntentsStep(sys, id);
    case ARemovePartly(id, survives) => RemovePartlyStep(sys, id, survives);
    case ARemoveDir(id) => RemoveDirStep(sys, id);
    case ADeleteRecord(id) => DeleteRecordKeeps(sys, id);
    case AFinishReceipt(id, blocked) => FinishReceiptKeeps(sys, id, blocked);
    case ARemoveStrayLink(id) => RemoveStrayLinkStep(sys, id);
    case AAbandonIntent(id, intent, blocked, proven) => AbandonIntentKeeps(sys, id, intent, blocked, proven);
  }

  lemma ForgetKeeps(sys: Sys, pending: Pending)
    requires SysInv(sys)
    ensures SysInv(sys.(releases := sys.releases - {pending}))
  {
    forall i ensures ViewOf(sys.(releases := sys.releases - {pending}), i) == ViewOf(sys, i) {
      assert ViewOk(ViewOf(sys, i));
    }
  }

  lemma ModelWriteKeepsAll(sys: Sys, op: Op)
    requires SysInv(sys) && IsModelWrite(op)
    ensures SysInv(Commit(sys, op)) && ReadyMoves(sys.store, Commit(sys, op).store)
  {
    var id := Identity("", "");
    ModelWriteSame(sys, op, id);
    SameViewKeeps(ViewOf(sys, id), ViewOf(Commit(sys, op), id));
    ModelWriteCommits(sys, op, id);
    PlainCommitKeeps(sys, Commit(sys, op), id, op);
  }

  /** The step starts, ends or recovers a task of its own identity. */
  predicate IsTaskAction(a: Action) {
    a.ABegin? || a.AReturn? || a.ARetryRelease? || a.AFinishFromMarker? || a.ARecoverInterrupted?
  }

  lemma TaskActionKeeps(sys: Sys, a: Action)
    requires IsTaskAction(a) && Ctx(sys, a.id)
    ensures GoodStep(sys, CommonAct(sys, a), a.id)
  {
    match a
    case ABegin(id, key, uid, path, seen) => BeginStep(sys, id, key, uid, path, seen);
    case AReturn(id) => LeaveStep(sys, id);
    case ARetryRelease(id, pending) => RetryReleaseKeeps(sys, id, pending);
    case AFinishFromMarker(id) => FinishFromMarkerKeeps(sys, id);
    case ARecoverInterrupted(id, expected) => RecoverInterruptedKeeps(sys, id, expected);
  }

  lemma CommonActKeeps(sys: Sys, a: Action)
    requires SysInv(sys)
    ensures SysInv(CommonAct(sys, a)) && ReadyMoves(sys.store, CommonAct(sys, a).store)
  {
    if a.AModelWrite? {
      if IsModelWrite(a.op) { ModelWriteKeepsAll(sys, a.op); }
    } else if a.AForgetRelease? {
      ForgetKeeps(sys, a.pending);
    } else if IsTaskAction(a) {
      SysInvGivesCtx(sys, a.id);
      TaskActionKeeps(sys, a);
      KeepingStepKeeps(sys, CommonAct(sys, a), a.id);
    }
  }

  lemma AcquiringActKeeps(sys: Sys, a: Action)
    requires SysInv(sys) && IsAcquiring(a)
    ensures SysInv(AcquiringAct(sys, a)) && ReadyMoves(sys.store, AcquiringAct(sys, a).store)
  {
    SysInvGivesCtx(sys, a.id);
    AcquiringKeeps(sys, a);
    KeepingStepKeeps(sys, AcquiringAct(sys, a), a.id);
  }

  lemma AttachingActKeeps(sys: Sys, a: Action)
    requires SysInv(sys) && IsAttaching(a)
    ensures SysInv(AttachingAct(sys, a)) && ReadyMoves(sys.store, AttachingAct(sys, a).store)
  {
    SysInvGivesCtx(sys, a.id);
    AttachingKeeps(sys, a);
    KeepingStepKeeps(sys, AttachingAct(sys, a), a.id);
  }

  lemma FillingActKeeps(sys: Sys, a: Action)
    requires SysInv(sys) && IsFilling(a)
    ensures SysInv(FillingAct(sys, a)) && ReadyMoves(sys.store, FillingAct(sys, a).store)
  {
    SysInvGivesCtx(sys, a.id);
    FillingKeeps(sys, a);
    KeepingStepKeeps(sys, FillingAct(sys, a), a.id);
  }

  lemma ReleasingActKeeps(sys: Sys, a: Action)
    requires SysInv(sys) && IsReleasing(a)
    ensures SysInv(ReleasingAct(sys, a)) && ReadyMoves(sys.store, ReleasingAct(sys, a).store)
  {
    SysInvGivesCtx(sys, a.id);
    ReleasingKeeps(sys, a);
    KeepingStepKeeps(sys, ReleasingAct(sys, a), a.id);
  }

  lemma RemovingActKeeps(sys: Sys, a: Action)
    requires SysInv(sys) && IsRemoving(a)
    ensures SysInv(RemovingAct(sys, a)) && ReadyMoves(sys.store, RemovingAct(sys, a).store)
  {
    SysInvGivesCtx(sys, a.id);
    RemovingKeeps(sys, a);
    KeepingStepKeeps(sys, RemovingAct(sys, a), a.id);
  }

  /** Every step of every handler, crash or model write keeps the invariant. */
  lemma ActKeeps(sys: Sys, a: Action)
    requires SysInv(sys)
    ensures SysInv(Act(sys, a)) && ReadyMoves(sys.store, Act(sys, a).store)
  {
    if IsAcquiring(a) {
      AcquiringActKeeps(sys, a);
    } else if IsAttaching(a) {
      AttachingActKeeps(sys, a);
    } else if IsFilling(a) {
      FillingActKeeps(sys, a);
    } else if IsReleasing(a) {
      ReleasingActKeeps(sys, a);
    } else if IsRemoving(a) {
      RemovingActKeeps(sys, a);
    } else {
      CommonActKeeps(sys, a);
    }
  }

  lemma {:induction false} HistoryKeepsInv(h: History, n: nat)
    requires h.Valid() && SysInv(h.states[0]) && n < |h.states|
    ensures SysInv(h.states[n])
  {
    if n > 0 {
      HistoryKeepsInv(h, n - 1);
      assert h.Linked(n - 1);
      ActKeeps(h.states[n - 1], h.actions[n - 1]);
    }
  }

  // ---- Ready means finished ----

  /**
   In every run, a Ready parent has its marker on disk and no unfinished download behind it, and so has
   every model reported Ready through it.
   */
  lemma ReadyIsNeverUnfinished(h: History, n: nat, id: Identity)
    requires h.Valid() && SysInv(h.states[0]) && n < |h.states|
    ensures var sys := h.states[n];
            && (ReadyRecord(sys.store, id) ==> MarkerExists(sys, id) && DirOf(sys, id).files != Unfinished)
            && (HasReadyChild(sys.store.children, id) ==> id in sys.store.parents && DirOf(sys, id).files != Unfinished)
  {
    HistoryKeepsInv(h, n);
    SysInvGivesCtx(h.states[n], id);
    if HasReadyChild(h.states[n].store.children, id) {
      var key :| key in h.states[n].store.children && ReadyAt(h.states[n].store.children, id, key);
      assert Names(h.states[n].store, id, key);
    }
  }

  /** A parent is finished from a marker only if the copy is complete: the marker names the one owner that wrote it. */
  lemma MarkerPublishesFinishedCopy(h: History, n: nat, id: Identity, lock: LockId)
    requires h.Valid() && SysInv(h.states[0]) && n < |h.states|
    requires HoldsLock(h.states[n].store, id, lock) && MarkerMatches(h.states[n], id, lock)
    ensures DirOf(h.states[n], id).files == Whole && IsWork(h.states[n].issued, lock)
  {
    HistoryKeepsInv(h, n);
    SysInvGivesCtx(h.states[n], id);
    MarkerProvesWhole(h.states[n], id, lock);
  }

  // ---- files change only under the owner's lock ----

  predicate ChangesFiles(a: Action) {
    IsFilling(a) || a.ARemovePartly? || a.ARemoveDir?
  }

  lemma AcquireLeavesFiles(sys: Sys, id: Identity, repair: bool)
    ensures AcquireParent(sys, id, repair).dirs == sys.dirs && AcquireLost(sys, id, repair).dirs == sys.dirs
  {
  }

  lemma RememberLeavesFiles(sys: Sys, id: Identity, blocked: bool)
    ensures RememberIntent(sys, id, blocked).dirs == sys.dirs
  {
  }

  lemma ReuseLeavesFiles(sys: Sys, id: Identity)
    ensures ReuseParent(sys, id).dirs == sys.dirs
  {
  }

  lemma AcquiringLeavesFiles(sys: Sys, a: Action)
    requires IsAcquiring(a)
    ensures AcquiringAct(sys, a).dirs == sys.dirs
  {
    if a.AAcquire? || a.AAcquireLost? {
      AcquireLeavesFiles(sys, a.id, a.repair);
    } else if a.ARememberIntent? {
      RememberLeavesFiles(sys, a.id, a.blocked);
    } else if a.AReuseParent? {
      ReuseLeavesFiles(sys, a.id);
    }
  }

  lemma AttachingLeavesFiles(sys: Sys, a: Action)
    requires IsAttaching(a)
    ensures AttachingAct(sys, a).dirs == sys.dirs
  {
  }

  lemma DetachLeavesFiles(sys: Sys, id: Identity, preserve: bool, retain: bool, blocked: bool)
    ensures Detach(sys, id, preserve, retain, blocked).dirs == sys.dirs
  {
  }

  lemma ReleaseLeavesFiles(sys: Sys, id: Identity, before: ParentStatus, commits: bool, heard: bool)
    requires id in sys.active
    ensures ReleaseDeletion(sys, id, before, commits, heard).dirs == sys.dirs
  {
  }

  lemma GivingBackLeavesFiles(sys: Sys, a: Action)
    requires a.AKeepForConsumer? || a.AKeepForOthers? || a.AGiveBack?
    ensures ReleasingAct(sys, a).dirs == sys.dirs
  {
    if a.id in sys.active {
      var task := sys.active[a.id];
      ReleaseLeavesFiles(sys, a.id, if task.pc.Preserving? then task.pc.before
                         else task.receipt.StatusBeforeDeletion(), a.commits, a.heard);
    }
  }

  lemma ClaimLeavesFiles(sys: Sys, id: Identity, proven: bool)
    ensures ClaimReceipt(sys, id, proven).dirs == sys.dirs
  {
  }

  lemma OwnLeavesFiles(sys: Sys, id: Identity, blocked: bool)
    ensures OwnParent(sys, id, blocked).dirs == sys.dirs
  {
  }

  lemma ReleasingLeavesFiles(sys: Sys, a: Action)
    requires IsReleasing(a)
    ensures ReleasingAct(sys, a).dirs == sys.dirs
  {
    if a.ADetach? {
      DetachLeavesFiles(sys, a.id, a.preserve, a.retain, a.blocked);
    } else if a.AClaimReceipt? {
      ClaimLeavesFiles(sys, a.id, a.proven);
    } else if a.AOwnParent? {
      OwnLeavesFiles(sys, a.id, a.blocked);
    } else if !a.AResumeReceipt? {
      GivingBackLeavesFiles(sys, a);
    }
  }

  lemma RemovingLeavesFiles(sys: Sys, a: Action)
    requires IsRemoving(a) && !ChangesFiles(a)
    ensures RemovingAct(sys, a).dirs == sys.dirs
  {
  }

  lemma CommonLeavesFiles(sys: Sys, a: Action)
    ensures CommonAct(sys, a).dirs == sys.dirs
  {
  }

  lemma OthersLeaveFiles(sys: Sys, a: Action)
    requires !ChangesFiles(a)
    ensures Act(sys, a).dirs == sys.dirs
  {
    if IsAcquiring(a) {
      AcquiringLeavesFiles(sys, a);
    } else if IsAttaching(a) {
      AttachingLeavesFiles(sys, a);
    } else if IsReleasing(a) {
      ReleasingLeavesFiles(sys, a);
    } else if IsRemoving(a) {
      RemovingLeavesFiles(sys, a);
    } else {
      CommonLeavesFiles(sys, a);
    }
  }

  /** The running task owns the record, so nobody else may be working in its directory. */
  predicate OwnedByTask(v: View) {
    v.task.Some? && Owns(v, v.task.value)
  }

  /** Nobody is recorded in the shared directory and no link points at it. */
  predicate Unreferenced(v: View) {
    v.rec.Some? && v.rec.value.children == map[] && v.noLinks
  }

  predicate Removes(a: Action) {
    a.ARemovePartly? || a.ARemoveDir?
  }

  predicate Empties(a: Action) {
    a.AReset? || a.AResetPartly? || Removes(a)
  }

  /** How one step may turn a directory `v.dir` into `d`. */
  predicate FileStep(v: View, d: Dir, a: Action) {
    && OwnedByTask(v)
    && (Empties(a) ==> Unreferenced(v))
    && (Removes(a) ==> v.noIntents)
    && (Empties(a) || a.ARemoveMarker? || a.AReplace? ==> !v.readyChild)
    && (v.dir.files == Whole && d.files != Whole ==> Empties(a) || a.AReplace?)
    && (d.marker == NoMarker || d.marker == v.dir.marker || d.files == Whole)
    && (d.files == PartlyRemoved && d.marker != NoMarker ==> MarkerSurvivesRemoval(a))
  }

  lemma ResetFiles(sys: Sys, a: Action, id: Identity)
    requires (a.AReset? || a.AResetPartly?) && ViewOk(ViewOf(sys, a.id)) && ChildrenListed(sys.store, a.id)
    requires DirOf(FillingAct(sys, a), id) != DirOf(sys, id)
    ensures id == a.id && FileStep(ViewOf(sys, id), DirOf(FillingAct(sys, a), id), a)
  {
    NoChildrenNoneReady(sys.store, a.id);
  }

  lemma RemoveMarkerFiles(sys: Sys, at: Identity, id: Identity)
    requires ViewOk(ViewOf(sys, at)) && DirOf(RemoveMarker(sys, at), id) != DirOf(sys, id)
    ensures id == at && FileStep(ViewOf(sys, id), DirOf(RemoveMarker(sys, at), id), ARemoveMarker(at))
  {
  }

  lemma ReplaceFiles(sys: Sys, at: Identity, id: Identity)
    requires ViewOk(ViewOf(sys, at)) && DirOf(Replace(sys, at), id) != DirOf(sys, id)
    ensures id == at && FileStep(ViewOf(sys, id), DirOf(Replace(sys, at), id), AReplace(at))
  {
  }

  lemma ChecksLeaveFiles(sys: Sys, a: Action)
    requires a.AValidate? || a.ACheckUnrecorded?
    ensures FillingAct(sys, a).dirs == sys.dirs
  {
  }

  /** Completing the copy, or writing the marker on a complete one. */
  lemma CompletedFiles(v: View, d: Dir, a: Action)
    requires ViewOk(v) && v.task.Some? && (a.AFinishFetch? || a.AWriteMarker?)
    requires (v.task.value.pc.Fetching? && d == v.dir.(files := Whole))
             || (v.task.value.pc.Fetched? && d == v.dir.(marker := d.marker))
    ensures FileStep(v, d, a)
  {
  }

  lemma FinishFetchFiles(sys: Sys, at: Identity, id: Identity)
    requires ViewOk(ViewOf(sys, at)) && DirOf(FinishFetch(sys, at), id) != DirOf(sys, id)
    ensures id == at && FileStep(ViewOf(sys, id), DirOf(FinishFetch(sys, at), id), AFinishFetch(at))
  {
    CompletedFiles(ViewOf(sys, at), DirOf(FinishFetch(sys, at), at), AFinishFetch(at));
  }

  lemma WriteMarkerFiles(sys: Sys, at: Identity, torn: bool, id: Identity)
    requires ViewOk(ViewOf(sys, at)) && DirOf(WriteMarker(sys, at, torn), id) != DirOf(sys, id)
    ensures id == at && FileStep(ViewOf(sys, id), DirOf(WriteMarker(sys, at, torn), id), AWriteMarker(at, torn))
  {
    CompletedFiles(ViewOf(sys, at), DirOf(WriteMarker(sys, at, torn), at), AWriteMarker(at, torn));
  }

  lemma RemovalFiles(sys: Sys, a: Action, id: Identity)
    requires Removes(a) && ViewOk(ViewOf(sys, a.id)) && ChildrenListed(sys.store, a.id)
    requires DirOf(RemovingAct(sys, a), id) != DirOf(sys, id)
    ensures id == a.id && FileStep(ViewOf(sys, id), DirOf(RemovingAct(sys, a), id), a)
  {
    NoChildrenNoneReady(sys.store, a.id);
  }

  lemma FillingFiles(sys: Sys, a: Action, id: Identity)
    requires IsFilling(a) && ViewOk(ViewOf(sys, a.id)) && ChildrenListed(sys.store, a.id)
    requires DirOf(FillingAct(sys, a), id) != DirOf(sys, id)
    ensures id == a.id && FileStep(ViewOf(sys, id), DirOf(FillingAct(sys, a), id), a)
  {
    if a.AReset? || a.AResetPartly? {
      ResetFiles(sys, a, id);
    } else if a.ARemoveMarker? {
      RemoveMarkerFiles(sys, a.id, id);
    } else if a.AReplace? {
      ReplaceFiles(sys, a.id, id);
    } else if a.AFinishFetch? {
      FinishFetchFiles(sys, a.id, id);
    } else if a.AWriteMarker? {
      WriteMarkerFiles(sys, a.id, a.torn, id);
    } else {
      ChecksLeaveFiles(sys, a);
    }
  }

  lemma ActIsFilling(sys: Sys, a: Action)
    requires IsFilling(a)
    ensures Act(sys, a) == FillingAct(sys, a)
  {
  }

  lemma ActIsRemoving(sys: Sys, a: Action)
    requires IsRemoving(a)
    ensures Act(sys, a) == RemovingAct(sys, a)
  {
  }

  lemma FillingElsewhere(sys: Sys, a: Action, id: Identity)
    requires IsFilling(a) && id != a.id
    ensures DirOf(FillingAct(sys, a), id) == DirOf(sys, id)
  {
  }

  lemma RemovalElsewhere(sys: Sys, a: Action, id: Identity)
    requires Removes(a) && id != a.id
    ensures DirOf(RemovingAct(sys, a), id) == DirOf(sys, id)
  {
  }

  lemma FilesElsewhere(sys: Sys, a: Action, id: Identity)
    requires ChangesFiles(a) ==> id != a.id
    ensures DirOf(Act(sys, a), id) == DirOf(sys, id)
  {
    if !ChangesFiles(a) {
      OthersLeaveFiles(sys, a);
    } else if IsFilling(a) {
      ActIsFilling(sys, a);
      FillingElsewhere(sys, a, id);
    } else {
      ActIsRemoving(sys, a);
      RemovalElsewhere(sys, a, id);
    }
  }

  /**
   In every run, a shared directory changes only under a task that owns its record. It is reset or
   removed only while no child is recorded and no link points at it, removed only if moreover no
   download intent names it, and repaired in place only while no attached model is reported Ready.
   */
  lemma OnlyTheOwnerChangesFiles(h: History, n: nat, id: Identity)
    requires h.Valid() && SysInv(h.states[0]) && n < |h.actions|
    requires DirOf(h.states[n + 1], id) != DirOf(h.states[n], id)
    ensures ChangesFiles(h.actions[n]) && h.actions[n].id == id
    ensures FileStep(ViewOf(h.states[n], id), DirOf(h.states[n + 1], id), h.actions[n])
  {
    var sys, a := h.states[n], h.actions[n];
    HistoryKeepsInv(h, n);
    assert h.Linked(n);
    SysInvGivesCtx(sys, id);
    if IsFilling(a) && a.id == id {
      ActIsFilling(sys, a);
      FillingFiles(sys, a, id);
    } else if Removes(a) && a.id == id {
      ActIsRemoving(sys, a);
      RemovalFiles(sys, a, id);
    } else {
      FilesElsewhere(sys, a, id);
    }
  }

  // ---- when Ready means complete ----

  /** The rest of a stopped removal carries no marker and no model is reported Ready through it. */
  predicate RemainsUnmarked(v: View) {
    v.dir.files == PartlyRemoved ==> v.dir.marker == NoMarker && !v.readyChild
  }

  predicate MarkerSurvivesRemoval(a: Action) {
    a.ARemovePartly? && a.markerSurvives
  }

  /** This step stops a removal in the identity's directory with the marker still in place. */
  predicate LeavesMarkedRemains(a: Action, id: Identity) {
    MarkerSurvivesRemoval(a) && a.id == id
  }

  lemma RemainsView(v: View, v': View, a: Action)
    requires ViewOk(v) && ViewOk(v') && ReadyCarries(v, v') && RemainsUnmarked(v)
    requires v'.dir == v.dir || (FileStep(v, v'.dir, a) && !MarkerSurvivesRemoval(a))
    ensures RemainsUnmarked(v')
  {
  }

  /** Two neighbouring states of a run, seen from one identity. */
  lemma NeighbouringViews(h: History, n: nat, id: Identity)
    requires h.Valid() && SysInv(h.states[0]) && n < |h.actions|
    ensures ViewOk(ViewOf(h.states[n], id)) && ViewOk(ViewOf(h.states[n + 1], id))
    ensures ReadyCarries(ViewOf(h.states[n], id), ViewOf(h.states[n + 1], id))
    ensures DirOf(h.states[n + 1], id) == DirOf(h.states[n], id)
            || (ChangesFiles(h.actions[n]) && h.actions[n].id == id
                && FileStep(ViewOf(h.states[n], id), DirOf(h.states[n + 1], id), h.actions[n]))
  {
    if DirOf(h.states[n + 1], id) != DirOf(h.states[n], id) { OnlyTheOwnerChangesFiles(h, n, id); }
    HistoryKeepsInv(h, n);
    assert h.Linked(n);
    ActKeeps(h.states[n], h.actions[n]);
    ReadyCarried(h.states[n].store, h.states[n + 1].store, id);
  }

  lemma RemainsStep(h: History, n: nat, id: Identity)
    requires h.Valid() && SysInv(h.states[0]) && n < |h.actions|
    requires RemainsUnmarked(ViewOf(h.states[n], id)) && !LeavesMarkedRemains(h.actions[n], id)
    ensures RemainsUnmarked(ViewOf(h.states[n + 1], id))
  {
    NeighbouringViews(h, n, id);
    RemainsView(ViewOf(h.states[n], id), ViewOf(h.states[n + 1], id), h.actions[n]);
  }

  lemma {:induction false} RemainsStayUnmarked(h: History, n: nat, id: Identity)
    requires h.Valid() && SysInv(h.states[0]) && n < |h.states| && RemainsUnmarked(ViewOf(h.states[0], id))
    requires forall i :: 0 <= i < n ==> !LeavesMarkedRemains(h.actions[i], id)
    ensures RemainsUnmarked(ViewOf(h.states[n], id))
  {
    if n > 0 {
      RemainsStayUnmarked(h, n - 1, id);
      RemainsStep(h, n - 1, id);
    }
  }

  /**
   As long as no removal in this directory was stopped with its marker left behind, Ready means a complete
   copy with its marker.
   */
  lemma ReadyIsComplete(h: History, n: nat, id: Identity)
    requires h.Valid() && SysInv(h.states[0]) && n < |h.states| && RemainsUnmarked(ViewOf(h.states[0], id))
    requires forall i :: 0 <= i < n ==> !LeavesMarkedRemains(h.actions[i], id)
    ensures ReadyRecord(h.states[n].store, id) ==>
              MarkerExists(h.states[n], id) && DirOf(h.states[n], id).files == Whole
    ensures HasReadyChild(h.states[n].store.children, id) ==> DirOf(h.states[n], id).files == Whole
  {
    RemainsStayUnmarked(h, n, id);
    ReadyIsNeverUnfinished(h, n, id);
  }

  /** The receipt the task works on is recorded, and the parent was Ready before. */
  predicate ReceiptRecorded(sys: Sys, id: Identity)
    requires id in sys.active
  {
    var task := sys.active[id];
    && HoldsReceipt(sys.store, task.key, task.receipt) && task.receipt.identity == id
       && task.receipt.StatusBeforeDeletion() == Ready
    && task.receipt.parentPath == Home(sys.root, id) && task.receipt.childPath == task.path
  }

  /** It owns the unused parent. */
  predicate StillOwned(sys: Sys, id: Identity)
    requires id in sys.active
  {
    id in sys.store.parents &&
    var parent := sys.store.parents[id];
    && parent.localPath == Home(sys.root, id) && parent.children == map[]
    && parent.status == Updating && parent.lockId == sys.active[id].receipt.parentLock && parent.lockId != NO_LOCK
  }

  /** The removal stops, the agent restarts and resumes the receipt: the records are as the removal left them. */
  function RestartedRemoval(sys: Sys, id: Identity, markerSurvives: bool): Sys
    requires At(sys, id, Unused)
  {
    var task := sys.active[id];
    var stopped := Leave(RemovePartly(sys, id, markerSurvives), id);
    ResumeReceipt(Begin(stopped, id, task.key, task.uid, task.path, Blank(sys.root, id)), id)
  }

  lemma RestartResumes(sys: Sys, id: Identity, markerSurvives: bool)
    requires ViewOk(ViewOf(sys, id)) && At(sys, id, Unused) && DirOf(sys, id).present && ReceiptRecorded(sys, id)
    ensures var b := RestartedRemoval(sys, id, markerSurvives);
            && DirOf(b, id) == Dir(true, if markerSurvives then DirOf(sys, id).marker else NoMarker, PartlyRemoved)
            && At(b, id, Deleting) && ReceiptRecorded(b, id) && StillOwned(b, id)
  {
  }

  lemma ResumedOwns(sys: Sys, id: Identity)
    requires At(sys, id, Deleting) && ReceiptRecorded(sys, id) && StillOwned(sys, id)
    ensures var b := OwnParent(sys, id, false);
            && b.root == sys.root && b.store == sys.store && b.dirs == sys.dirs && At(b, id, DeletionOwned(true))
            && b.active[id].parent == sys.store.parents[id] && b.active[id].receipt == sys.active[id].receipt
  {
  }

  lemma OwnedGivesBack(sys: Sys, id: Identity)
    requires At(sys, id, DeletionOwned(true)) && StillOwned(sys, id) && sys.active[id].parent == sys.store.parents[id]
    requires sys.active[id].receipt.StatusBeforeDeletion() == Ready
    ensures var b := KeepForConsumer(sys, id, true, true);
            DirOf(b, id) == DirOf(sys, id) && (ReadyRecord(b.store, id) <==> MarkerExists(sys, id))
  {
  }

  lemma ResumedGivesBack(sys: Sys, id: Identity)
    requires At(sys, id, Deleting) && ReceiptRecorded(sys, id) && StillOwned(sys, id)
    ensures var b := KeepForConsumer(OwnParent(sys, id, false), id, true, true);
            DirOf(b, id) == DirOf(sys, id) && (ReadyRecord(b.store, id) <==> MarkerExists(sys, id))
  {
    ResumedOwns(sys, id);
    OwnedGivesBack(OwnParent(sys, id, false), id);
  }

  /**
   A run in which Ready stands over remains: a removal that is stopped, then resumed when the child path
   has another consumer, gives the parent back, and a directory with files missing becomes Ready if and
   only if the marker outlived the stopped removal. `HfHistories.ReadyOverRemainsIff` is the exact
   condition for every step of every history.
   */
  lemma StoppedRemovalIsPublishedIff(sys: Sys, id: Identity, markerSurvives: bool)
    requires ViewOk(ViewOf(sys, id)) && At(sys, id, Unused) && DirOf(sys, id).present && ReceiptRecorded(sys, id)
    ensures var b := KeepForConsumer(OwnParent(RestartedRemoval(sys, id, markerSurvives), id, false), id, true, true);
            DirOf(b, id).files == PartlyRemoved
              && (ReadyRecord(b.store, id) <==> markerSurvives && MarkerExists(sys, id))
  {
    RestartResumes(sys, id, markerSurvives);
    ResumedGivesBack(RestartedRemoval(sys, id, markerSurvives), id);
  }
}
