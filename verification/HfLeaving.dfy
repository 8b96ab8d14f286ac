/**
 The handlers' way out: a deletion that is left alone removes the reference, the link and, if nobody else needs
 it, the directory. From every state that a history can reach, by the steps of the model's own task.
 */
module HfLeaving {
  import opened HfTypes
  import opened HfRepository
  import opened HfRuns
  import opened HfProtocol
  import opened HfProtocolProof
  import opened HfProgress
  import opened Maps

  // ---- single steps ----

  lemma DoDetach(reach: iset<Sys>, who: Who, s: Sys, preserve: bool, retain: bool)
    requires Closed(reach, who) && s in reach
    ensures Detach(s, who.id, preserve, retain, false) in reach
  {
    assert Act(s, ADetach(who.id, preserve, retain, false)) in reach;
  }

  lemma DoResume(reach: iset<Sys>, who: Who, s: Sys)
    requires Closed(reach, who) && s in reach
    ensures ResumeReceipt(s, who.id) in reach
  {
    assert Act(s, AResumeReceipt(who.id)) in reach;
  }

  lemma DoClaim(reach: iset<Sys>, who: Who, s: Sys)
    requires Closed(reach, who) && s in reach
    ensures ClaimReceipt(s, who.id, true) in reach
  {
    assert Act(s, AClaimReceipt(who.id, true)) in reach;
  }

  lemma DoOwn(reach: iset<Sys>, who: Who, s: Sys)
    requires Closed(reach, who) && s in reach
    ensures OwnParent(s, who.id, false) in reach
  {
    assert Act(s, AOwnParent(who.id, false)) in reach;
  }

  lemma DoUnlink(reach: iset<Sys>, who: Who, s: Sys)
    requires Closed(reach, who) && s in reach
    ensures Unlink(s, who.id) in reach
  {
    assert Act(s, AUnlink(who.id)) in reach;
  }

  lemma DoScan(reach: iset<Sys>, who: Who, s: Sys)
    requires Closed(reach, who) && s in reach
    ensures ScanLinks(s, who.id) in reach && ScanIntents(s, who.id) in reach
  {
    assert Act(s, AScanLinks(who.id)) in reach;
    assert Act(s, AScanIntents(who.id)) in reach;
  }

  lemma DoKeep(reach: iset<Sys>, who: Who, s: Sys)
    requires Closed(reach, who) && s in reach
    ensures KeepForOthers(s, who.id, true, true) in reach
  {
    assert Act(s, AKeepForOthers(who.id, true, true)) in reach;
  }

  lemma DoKeepPath(reach: iset<Sys>, who: Who, s: Sys)
    requires Closed(reach, who) && s in reach
    ensures KeepForConsumer(s, who.id, true, true) in reach
  {
    assert Act(s, AKeepForConsumer(who.id, true, true)) in reach;
  }

  lemma DoRemove(reach: iset<Sys>, who: Who, s: Sys)
    requires Closed(reach, who) && s in reach
    ensures RemoveDir(s, who.id) in reach
  {
    assert Act(s, ARemoveDir(who.id)) in reach;
  }

  lemma DoDelete(reach: iset<Sys>, who: Who, s: Sys)
    requires Closed(reach, who) && s in reach
    ensures DeleteRecord(s, who.id) in reach
  {
    assert Act(s, ADeleteRecord(who.id)) in reach;
  }

  lemma DoFinishReceipt(reach: iset<Sys>, who: Who, s: Sys)
    requires Closed(reach, who) && s in reach
    ensures FinishReceipt(s, who.id, false) in reach
  {
    assert Act(s, AFinishReceipt(who.id, false)) in reach;
  }

  // ---- a deletion in charge ----

  /**
   The task has its receipt, and knows the parent as it is stored: gone, still in use, or unused and owned by
   this receipt.
   */
  predicate InCharge(b: Sys, who: Who, task: Task) {
    && task.pc.DeletionOwned? && TaskOf(b, who, task) && who.id !in b.active
    && HoldsReceipt(b.store, who.key, task.receipt) && b.store.children[who.key].pendingDownload.None?
    && (task.pc.found <==> who.id in b.store.parents) && (task.pc.found ==> b.store.parents[who.id] == task.parent)
    && (task.pc.found && task.parent.children == map[] ==>
          task.receipt.parentLock != NO_LOCK && task.parent.lockId == task.receipt.parentLock
            && task.parent.status == Updating && task.parent.saved == map[])
  }

  /** The records once the receipt is done with. */
  function Settled(s: Store, key: ModelKey): Store
    requires key in s.children
  {
    s.(children := s.children[key := s.children[key].(pendingDeletion := None)])
  }

  lemma Finishes(b: Sys, who: Who, task: Task)
    requires task.pc == DeletionDone && task.key == who.key && who.id !in b.active
    requires HoldsReceipt(b.store, who.key, task.receipt)
    ensures FinishReceipt(Goto(b, who.id, task), who.id, false) == Written(b, Settled(b.store, who.key))
  {
    CommitEnds(b, who.id, task, FinishDeletion(who.key, task.receipt, false), Settled(b.store, who.key));
  }

  // ---- the link ----

  function Unlinking(b: Sys, who: Who): Sys {
    b.(links := b.links - {who.path})
  }

  lemma Unlinks(b: Sys, who: Who, task: Task)
    requires InCharge(b, who, task) && (who.path in b.links ==> b.links[who.path] == who.id)
    ensures Unlink(Goto(b, who.id, task), who.id) ==
              Goto(Unlinking(b, who), who.id, task.(pc := Unlinked(task.pc.found)))
  {
    if who.path !in b.links { assert b.links - {who.path} == b.links; }
  }

  // ---- giving an unused parent back ----

  /** The record given back with this status before. */
  function GivenBack(s: Store, id: Identity, p: Parent, before: ParentStatus, marked: bool): Store {
    s.(parents := s.parents[id := p.(status := ReleaseTarget(before, marked), lastCompleted := p.lockId,
                                     lockId := NO_LOCK)])
  }

  lemma GivingBackSucceeds(s: Store, id: Identity, p: Parent, before: ParentStatus, marked: bool)
    requires id in s.parents && s.parents[id] == p && CanonicalPath(id, p.localPath)
    requires p.status == Updating && p.lockId != NO_LOCK && p.children == map[] && p.saved == map[]
    ensures SetStatus(s, id, p, ReleaseTarget(before, marked)) == Done(GivenBack(s, id, p, before, marked), ())
  {
    assert StatusesToRestore(s, id, p, p) == map[];
    assert WithStatuses(s.children, map[]) == s.children;
  }

  lemma GivesBack(b: Sys, who: Who, task: Task, before: ParentStatus)
    requires TaskOf(b, who, task) && who.id in b.store.parents && b.store.parents[who.id] == task.parent
    requires task.parent.status == Updating && task.parent.lockId != NO_LOCK
    requires task.parent.children == map[] && task.parent.saved == map[]
    ensures ReleaseDeletion(Goto(b, who.id, task), who.id, before, true, true) ==
              Goto(Written(b, GivenBack(b.store, who.id, task.parent, before, MarkerExists(b, who.id))), who.id,
                   task.(pc := DeletionDone))
  {
    var marked := MarkerExists(b, who.id);
    GivingBackSucceeds(b.store, who.id, task.parent, before, marked);
    CommitGoesOn(b, who.id, task, task.(pc := DeletionDone),
                 Release(who.id, task.parent, ReleaseTarget(before, marked)),
                 GivenBack(b.store, who.id, task.parent, before, marked));
  }

  // ---- who still needs the directory ----

  lemma InUse(b: Sys, who: Who, task: Task)
    requires task.pc.Unlinked? && !(task.pc.found && task.parent.children == map[])
    ensures ScanLinks(Goto(b, who.id, task), who.id) == Goto(b, who.id, task.(pc := DeletionDone))
  {
  }

  /** The task owns an unused parent. */
  predicate OwnsUnused(b: Sys, who: Who, task: Task) {
    && TaskOf(b, who, task) && who.id in b.store.parents && b.store.parents[who.id] == task.parent
       && who.id !in b.active
    && task.parent.children == map[] && task.parent.saved == map[] && task.parent.status == Updating
    && task.receipt.parentLock != NO_LOCK && task.parent.lockId == task.receipt.parentLock
  }

  lemma Scans(b: Sys, who: Who, task: Task)
    requires OwnsUnused(b, who, task) && task.pc == Unlinked(true) && NoLinks(b.links, who.id)
    ensures ScanLinks(Goto(b, who.id, task), who.id) == Goto(b, who.id, task.(pc := Scanned))
    ensures !HasPendingDownloads(b.store, who.id, Home(b.root, who.id)) ==>
              ScanIntents(Goto(b, who.id, task.(pc := Scanned)), who.id) == Goto(b, who.id, task.(pc := Unused))
  {
  }

  lemma KeepsForOthers(b: Sys, who: Who, task: Task)
    requires OwnsUnused(b, who, task) && (task.pc == Unlinked(true) || task.pc == Scanned)
    ensures KeepForOthers(Goto(b, who.id, task), who.id, true, true) ==
              Goto(Written(b, GivenBack(b.store, who.id, task.parent, task.receipt.StatusBeforeDeletion(),
                                        MarkerExists(b, who.id))), who.id, task.(pc := DeletionDone))
  {
    GivesBack(b, who, task, task.receipt.StatusBeforeDeletion());
  }

  lemma KeepsForConsumer(b: Sys, who: Who, task: Task)
    requires InCharge(b, who, task)
    ensures KeepForConsumer(Goto(b, who.id, task), who.id, true, true) ==
              if task.pc.found && task.parent.children == map[]
              then Goto(Written(b, GivenBack(b.store, who.id, task.parent, task.receipt.StatusBeforeDeletion(),
                                             MarkerExists(b, who.id))), who.id, task.(pc := DeletionDone))
              else Goto(b, who.id, task.(pc := DeletionDone))
  {
    if task.pc.found && task.parent.children == map[] { GivesBack(b, who, task, task.receipt.StatusBeforeDeletion()); }
  }

  function Erased(b: Sys, who: Who): Sys {
    b.(dirs := b.dirs[who.id := ABSENT])
  }

  function WithoutParent(s: Store, id: Identity): Store {
    s.(parents := s.parents - {id})
  }

  lemma Removes(b: Sys, who: Who, task: Task)
    requires OwnsUnused(b, who, task) && task.pc == Unused
    ensures RemoveDir(Goto(b, who.id, task), who.id) == Goto(Erased(b, who), who.id, task.(pc := Removed))
    ensures DeleteRecord(Goto(Erased(b, who), who.id, task.(pc := Removed)), who.id) ==
              Goto(Written(Erased(b, who), WithoutParent(b.store, who.id)), who.id, task.(pc := DeletionDone))
  {
    var c, removed := Erased(b, who), task.(pc := Removed);
    assert DeleteIfUnreferenced(b.store, who.id, task.parent) == Done(WithoutParent(b.store, who.id), true);
    CommitGoesOn(c, who.id, removed, task.(pc := DeletionDone), DeleteParent(who.id, task.parent),
                 WithoutParent(b.store, who.id));
  }

  // ---- the end ----

  /** Somebody else needs the directory: its path has another consumer, a link is left, or an intent names it. */
  predicate Wanted(b: Sys, who: Who, kept: bool) {
    kept || !NoLinks(b.links - {who.path}, who.id) || HasPendingDownloads(b.store, who.id, Home(b.root, who.id))
  }

  /** What a deletion in charge leaves of the parent and its files. */
  function Outcome(b: Sys, who: Who, task: Task, kept: bool): Sys
    requires task.pc.DeletionOwned?
  {
    var c := if kept then b else Unlinking(b, who);
    if !(task.pc.found && task.parent.children == map[]) then c
    else if Wanted(b, who, kept)
    then Written(c,
                 GivenBack(b.store, who.id, task.parent, task.receipt.StatusBeforeDeletion(), MarkerExists(b, who.id)))
    else Written(Erased(c, who), WithoutParent(b.store, who.id))
  }

  lemma OutcomeHoldsReceipt(b: Sys, who: Who, task: Task, kept: bool)
    requires InCharge(b, who, task)
    ensures var r := Outcome(b, who, task, kept);
            HoldsReceipt(r.store, who.key, task.receipt) && who.id !in r.active && r.store.children == b.store.children
  {
  }

  lemma KeepingPath(reach: iset<Sys>, b: Sys, who: Who, task: Task)
    requires Closed(reach, who) && Goto(b, who.id, task) in reach && InCharge(b, who, task)
    ensures Goto(Outcome(b, who, task, true), who.id, task.(pc := DeletionDone)) in reach
  {
    DoKeepPath(reach, who, Goto(b, who.id, task));
    KeepsForConsumer(b, who, task);
  }

  lemma InChargeOwns(b: Sys, who: Who, task: Task)
    requires InCharge(b, who, task) && task.pc.found && task.parent.children == map[]
    ensures OwnsUnused(Unlinking(b, who), who, task.(pc := Unlinked(true)))
    ensures OwnsUnused(Unlinking(b, who), who, task.(pc := Scanned))
    ensures OwnsUnused(Unlinking(b, who), who, task.(pc := Unused))
  {
  }

  lemma LeavingForOthers(reach: iset<Sys>, c: Sys, who: Who, task: Task)
    requires Closed(reach, who) && Goto(c, who.id, task) in reach
    requires OwnsUnused(c, who, task) && task.pc == Unlinked(true)
    requires !NoLinks(c.links, who.id) || HasPendingDownloads(c.store, who.id, Home(c.root, who.id))
    ensures Goto(Written(c, GivenBack(c.store, who.id, task.parent, task.receipt.StatusBeforeDeletion(),
                                      MarkerExists(c, who.id))), who.id, task.(pc := DeletionDone)) in reach
  {
    DoKeep(reach, who, Goto(c, who.id, task));
    KeepsForOthers(c, who, task);
  }

  lemma RemovingAll(reach: iset<Sys>, c: Sys, who: Who, task: Task)
    requires Closed(reach, who) && Goto(c, who.id, task) in reach
    requires OwnsUnused(c, who, task) && task.pc == Unlinked(true)
    requires NoLinks(c.links, who.id) && !HasPendingDownloads(c.store, who.id, Home(c.root, who.id))
    ensures Goto(Written(Erased(c, who), WithoutParent(c.store, who.id)), who.id, task.(pc := DeletionDone)) in reach
  {
    DoScan(reach, who, Goto(c, who.id, task));
    Scans(c, who, task);
    DoScan(reach, who, Goto(c, who.id, task.(pc := Scanned)));
    DoRemove(reach, who, Goto(c, who.id, task.(pc := Unused)));
    Removes(c, who, task.(pc := Unused));
    DoDelete(reach, who, Goto(Erased(c, who), who.id, task.(pc := Removed)));
  }

  lemma CleaningUp(reach: iset<Sys>, b: Sys, who: Who, task: Task)
    requires Closed(reach, who) && Goto(b, who.id, task) in reach && InCharge(b, who, task)
    requires who.path in b.links ==> b.links[who.path] == who.id
    ensures Goto(Outcome(b, who, task, false), who.id, task.(pc := DeletionDone)) in reach
  {
    var c, unlinked := Unlinking(b, who), task.(pc := Unlinked(task.pc.found));
    DoUnlink(reach, who, Goto(b, who.id, task));
    Unlinks(b, who, task);
    if !(task.pc.found && task.parent.children == map[]) {
      DoScan(reach, who, Goto(c, who.id, unlinked));
      InUse(c, who, unlinked);
    } else {
      InChargeOwns(b, who, task);
      if Wanted(b, who, false) {
        LeavingForOthers(reach, c, who, unlinked);
      } else {
        RemovingAll(reach, c, who, unlinked);
      }
    }
  }

  /** Once it is in charge, a deletion ends as the outcome says, with its receipt done. */
  lemma Ending(reach: iset<Sys>, b: Sys, who: Who, task: Task, kept: bool)
    requires Closed(reach, who) && Goto(b, who.id, task) in reach && InCharge(b, who, task)
    requires !kept && who.path in b.links ==> b.links[who.path] == who.id
    ensures var r := Outcome(b, who, task, kept);
            who.key in r.store.children && Written(r, Settled(r.store, who.key)) in reach
  {
    var r := Outcome(b, who, task, kept);
    if kept { KeepingPath(reach, b, who, task); } else { CleaningUp(reach, b, who, task); }
    OutcomeHoldsReceipt(b, who, task, kept);
    DoFinishReceipt(reach, who, Goto(r, who.id, task.(pc := DeletionDone)));
    Finishes(r, who, task.(pc := DeletionDone));
  }

  // ---- taking charge ----

  /** The receipt is this task's, of this directory and path, and its parent is gone, free or its own. */
  predicate MayTakeCharge(b: Sys, who: Who, task: Task) {
    && task.pc == Deleting && task.key == who.key && task.uid == who.uid && task.path == who.path && who.id !in b.active
    && HoldsReceipt(b.store, who.key, task.receipt) && b.store.children[who.key].pendingDownload.None?
    && task.receipt.identity == who.id && task.receipt.parentPath == Home(b.root, who.id)
    && Grounds(b, who.id)
    && (who.id in b.store.parents ==>
          var p := b.store.parents[who.id];
          && who.key !in p.children
          && (p.lockId != NO_LOCK ==> p.lockId == task.receipt.parentLock && p.children == map[]))
  }

  /** A free and unused parent is taken over now. */
  predicate TakesOver(b: Sys, who: Who) {
    who.id in b.store.parents && b.store.parents[who.id].lockId == NO_LOCK && b.store.parents[who.id].children == map[]
  }

  function ReceiptInCharge(b: Sys, who: Who, r: PendingDeletion): PendingDeletion {
    if TakesOver(b, who) then
      var p := b.store.parents[who.id];
      r.(parentWasReady := p.status == Ready, statusBefore := Some(p.status), parentLock := b.next)
    else r
  }

  function ParentInCharge(b: Sys, who: Who): Parent {
    if TakesOver(b, who) then OwnedBy(b.store.parents[who.id], b.next)
    else if who.id in b.store.parents then b.store.parents[who.id]
    else Blank(b.root, who.id)
  }

  function StoreInCharge(b: Sys, who: Who, r: PendingDeletion): Store
    requires who.key in b.store.children
  {
    if TakesOver(b, who) then
      Store(b.store.parents[who.id := ParentInCharge(b, who)],
            b.store.children[who.key :=
                             b.store.children[who.key].(pendingDeletion := Some(ReceiptInCharge(b, who, r)))])
    else b.store
  }

  lemma OwningSucceeds(b: Sys, who: Who, task: Task, absent: bool)
    requires MayTakeCharge(b, who, task)
    ensures var r := ReceiptInCharge(b, who, task.receipt);
            DeletionParent(b.store, who.key, task.receipt, absent, false, b.next) ==
              Done(StoreInCharge(b, who, task.receipt),
                   DeletionOwner(if who.id in b.store.parents then Found(who.id, ParentInCharge(b, who))
                                 else NotFound, r))
  {
  }

  function Charged(b: Sys, who: Who, task: Task): Sys
    requires who.key in b.store.children
  {
    Written(b, StoreInCharge(b, who, task.receipt)).(issued :=
      b.issued[b.next := ForDeletion(ReceiptInCharge(b, who, task.receipt).StatusBeforeDeletion())])
  }

  function TaskInCharge(b: Sys, who: Who, task: Task): Task {
    task.(pc := DeletionOwned(who.id in b.store.parents), parent := ParentInCharge(b, who),
          receipt := ReceiptInCharge(b, who, task.receipt))
  }

  lemma TakesCharge(b: Sys, who: Who, task: Task)
    requires MayTakeCharge(b, who, task)
    ensures OwnParent(Goto(b, who.id, task), who.id, false) ==
              Goto(Charged(b, who, task), who.id, TaskInCharge(b, who, task))
  {
    var absent := !DirOf(b, who.id).present;
    OwningSucceeds(b, who, task, absent);
    CommitGoesOn(b, who.id, task, TaskInCharge(b, who, task), OwnDeletion(who.key, task.receipt, absent, false),
                 StoreInCharge(b, who, task.receipt));
  }

  lemma ChargedIsInCharge(b: Sys, who: Who, task: Task)
    requires MayTakeCharge(b, who, task)
    ensures InCharge(Charged(b, who, task), who, TaskInCharge(b, who, task))
  {
  }

  lemma TakingCharge(reach: iset<Sys>, b: Sys, who: Who, task: Task)
    requires Closed(reach, who) && Goto(b, who.id, task) in reach && MayTakeCharge(b, who, task)
    ensures Goto(Charged(b, who, task), who.id, TaskInCharge(b, who, task)) in reach
  {
    DoOwn(reach, who, Goto(b, who.id, task));
    TakesCharge(b, who, task);
  }

  // ---- from a reference ----

  /** Both sides of the reference are there under this path, and nobody owns the parent. */
  predicate MayLeave(sys: Sys, who: Who) {
    && who.id !in sys.active && who.path != "" && Lists(sys.store, who.id, who.key) && Names(sys.store, who.id, who.key)
    && sys.store.parents[who.id].children[who.key] == who.path && sys.store.parents[who.id].lockId == NO_LOCK
  }

  function Left(sys: Sys, who: Who): Parent
    requires who.id in sys.store.parents
  {
    LeftBehind(sys.store.parents[who.id], who.key, sys.next)
  }

  function LeavingReceipt(sys: Sys, who: Who): PendingDeletion
    requires who.id in sys.store.parents
  {
    DetachReceipt(who.id, sys.store.parents[who.id], Left(sys, who), who.uid, who.path)
  }

  function DetachedStore(sys: Sys, who: Who, receipt: Option<PendingDeletion>): Store
    requires who.id in sys.store.parents && who.key in sys.store.children
  {
    Store(sys.store.parents[who.id := Left(sys, who)],
          sys.store.children[who.key := sys.store.children[who.key].(parentKey := None, pendingDeletion := receipt)])
  }

  lemma DetachSucceeds(sys: Sys, who: Who, pending: bool)
    requires MayLeave(sys, who) && Grounds(sys, who.id) && ChildGrounds(sys, who)
    ensures var receipt := if pending then Some(LeavingReceipt(sys, who)) else None;
            RemoveModelReference(sys.store, who.id, sys.store.parents[who.id], who.key, who.uid, who.path, pending,
                                 false,
                                 sys.next) ==
              Done(DetachedStore(sys, who, receipt), Removal(Left(sys, who), true, Left(sys, who).children == map[]))
  {
  }

  function Detached(sys: Sys, who: Who, receipt: Option<PendingDeletion>): Sys
    requires who.id in sys.store.parents && who.key in sys.store.children
  {
    Written(sys, DetachedStore(sys, who, receipt)).(issued :=
      sys.issued[sys.next := ForDeletion(sys.store.parents[who.id].status)])
  }

  function Leaver(sys: Sys, who: Who, receipt: PendingDeletion): Task {
    Beginner(sys, who).(pc := Deleting, receipt := receipt)
  }

  lemma Detaches(sys: Sys, who: Who)
    requires MayLeave(sys, who) && Grounds(sys, who.id) && ChildGrounds(sys, who)
    ensures var r := LeavingReceipt(sys, who);
            Detach(Goto(sys, who.id, Beginner(sys, who)), who.id, false, true, false) ==
              Goto(Detached(sys, who, Some(r)), who.id, Leaver(sys, who, r))
  {
    var r, p := LeavingReceipt(sys, who), sys.store.parents[who.id];
    DetachSucceeds(sys, who, true);
    CommitGoesOn(sys, who.id, Beginner(sys, who), Leaver(sys, who, r),
                 RemoveReference(who.id, p, who.key, who.uid, who.path, true, false), DetachedStore(sys, who, Some(r)));
  }

  lemma DetachedMayTakeCharge(sys: Sys, who: Who)
    requires MayLeave(sys, who) && Grounds(sys, who.id) && ChildGrounds(sys, who)
    ensures var r := LeavingReceipt(sys, who); MayTakeCharge(Detached(sys, who, Some(r)), who, Leaver(sys, who, r))
  {
  }

  // ---- what is left ----

  /** The model keeps its record, without reference and receipt; its link is gone unless the path is kept. */
  ghost predicate HasLeft(sys: Sys, t: Sys, who: Who, kept: bool) {
    && who.key in sys.store.children
    && t.store.children ==
         sys.store.children[who.key := sys.store.children[who.key].(parentKey := None, pendingDeletion := None)]
    && t.links == (if kept then sys.links else sys.links - {who.path}) && t.active == sys.active && t.root == sys.root
    && (forall i :: i != who.id ==> Get(t.store.parents, i) == Get(sys.store.parents, i))
  }

  /**
   The parent, with this record and status before, keeps its other children; unused, it is given back if anybody
   wants it, and is removed with its files if nobody does.
   */
  predicate ParentLeft(sys: Sys, t: Sys, who: Who, kept: bool, rest: Parent, before: ParentStatus) {
    if rest.children != map[] then who.id in t.store.parents && t.store.parents[who.id] == rest && t.dirs == sys.dirs
    else if Wanted(sys, who, kept) then
      && who.id in t.store.parents && t.dirs == sys.dirs
      && var q := t.store.parents[who.id];
         && q.lastCompleted != NO_LOCK
         && q == rest.(status := ReleaseTarget(before, MarkerExists(sys, who.id)), lockId := NO_LOCK,
                       lastCompleted := q.lastCompleted)
    else who.id !in t.store.parents && t.dirs == sys.dirs[who.id := ABSENT]
  }

  function Finished(b: Sys, who: Who, task: Task, kept: bool): Sys
    requires task.pc.DeletionOwned? && who.key in b.store.children
  {
    var r := Outcome(b, who, task, kept);
    Written(r, Settled(b.store, who.key).(parents := r.store.parents))
  }

  lemma EndsFinished(reach: iset<Sys>, b: Sys, who: Who, task: Task, kept: bool)
    requires Closed(reach, who) && Goto(b, who.id, task) in reach && InCharge(b, who, task)
    requires !kept && who.path in b.links ==> b.links[who.path] == who.id
    ensures Finished(b, who, task, kept) in reach
  {
    Ending(reach, b, who, task, kept);
    OutcomeHoldsReceipt(b, who, task, kept);
    var r := Outcome(b, who, task, kept);
    assert Settled(r.store, who.key) == Settled(b.store, who.key).(parents := r.store.parents);
  }

  /** What the end is like, seen from the state in which the deletion took charge. */
  lemma FinishedLeaves(b: Sys, who: Who, task: Task, kept: bool)
    requires InCharge(b, who, task)
    ensures var t := Finished(b, who, task, kept);
            && HasLeft(b, t, who, kept)
            && (if task.pc.found then ParentLeft(b, t, who, kept, task.parent, task.receipt.StatusBeforeDeletion())
                else who.id !in t.store.parents && t.dirs == b.dirs)
  {
  }

  lemma SameIntents(s: Store, t: Store, id: Identity, home: DirPath, key: ModelKey)
    requires forall k :: k != key ==> Get(t.children, k) == Get(s.children, k)
    requires key in s.children ==> s.children[key].pendingDownload.None?
    requires key in t.children ==> t.children[key].pendingDownload.None?
    ensures HasPendingDownloads(t, id, home) == HasPendingDownloads(s, id, home)
  {
    forall k ensures (k in s.children && NamesDirectory(s.children[k], id, home)) <==>
                     (k in t.children && NamesDirectory(t.children[k], id, home)) {
      assert k != key ==> Get(t.children, k) == Get(s.children, k);
    }
  }

  /** The same end, seen from before the deletion took charge. */
  lemma LeftSince(sys: Sys, b: Sys, t: Sys, who: Who, kept: bool, p: Parent, rest: Parent, before: ParentStatus)
    requires HasLeft(b, t, who, kept) && ParentLeft(b, t, who, kept, p, before)
    requires who.key in sys.store.children && who.key in b.store.children
    requires b.store.children[who.key] ==
               sys.store.children[who.key].(parentKey := None,
                                            pendingDeletion := b.store.children[who.key].pendingDeletion)
    requires b.store.children == sys.store.children[who.key := b.store.children[who.key]]
    requires sys.store.children[who.key].pendingDownload.None?
    requires SamePlaces(sys, b) && b.dirs == sys.dirs
    requires forall i :: i != who.id ==> Get(b.store.parents, i) == Get(sys.store.parents, i)
    requires if rest.children != map[] then p == rest
             else p == rest.(status := p.status, lockId := p.lockId, lastCompleted := p.lastCompleted)
    ensures HasLeft(sys, t, who, kept) && ParentLeft(sys, t, who, kept, rest, before)
  {
    SameIntents(sys.store, b.store, who.id, Home(sys.root, who.id), who.key);
    var c := b.store.children[who.key].(parentKey := None, pendingDeletion := None);
    PutTwice(sys.store.children, who.key, b.store.children[who.key], c);
  }

  lemma LeavingTakesCharge(reach: iset<Sys>, sys: Sys, who: Who)
    requires Closed(reach, who) && sys in reach && MayLeave(sys, who) && Grounds(sys, who.id) && ChildGrounds(sys, who)
    ensures var r := LeavingReceipt(sys, who);
            var b, task := Detached(sys, who, Some(r)), Leaver(sys, who, r);
            Goto(Charged(b, who, task), who.id, TaskInCharge(b, who, task)) in reach
  {
    var r := LeavingReceipt(sys, who);
    DoBegin(reach, who, sys, Blank(sys.root, who.id));
    Begins(sys, who);
    DoDetach(reach, who, Goto(sys, who.id, Beginner(sys, who)), false, true);
    Detaches(sys, who);
    DetachedMayTakeCharge(sys, who);
    TakingCharge(reach, Detached(sys, who, Some(r)), who, Leaver(sys, who, r));
  }

  /** The state in which a detached model's deletion is in charge. */
  function LeavingCharged(sys: Sys, who: Who): Sys
    requires who.id in sys.store.parents && who.key in sys.store.children
  {
    var r := LeavingReceipt(sys, who);
    Charged(Detached(sys, who, Some(r)), who, Leaver(sys, who, r))
  }

  function LeavingTask(sys: Sys, who: Who): Task
    requires who.id in sys.store.parents && who.key in sys.store.children
  {
    var r := LeavingReceipt(sys, who);
    TaskInCharge(Detached(sys, who, Some(r)), who, Leaver(sys, who, r))
  }

  lemma LeavingFacts(sys: Sys, who: Who)
    requires MayLeave(sys, who) && Grounds(sys, who.id) && ChildGrounds(sys, who)
    ensures var b, task := LeavingCharged(sys, who), LeavingTask(sys, who);
            && InCharge(b, who, task) && task.pc.found && task.parent == Left(sys, who)
            && task.receipt == LeavingReceipt(sys, who)
            && b.store == DetachedStore(sys, who, Some(LeavingReceipt(sys, who)))
            && b.dirs == sys.dirs && SamePlaces(sys, b)
  {
    var r := LeavingReceipt(sys, who);
    DetachedMayTakeCharge(sys, who);
    ChargedIsInCharge(Detached(sys, who, Some(r)), who, Leaver(sys, who, r));
  }

  lemma LeavingLeaves(sys: Sys, who: Who, kept: bool, t: Sys)
    requires MayLeave(sys, who) && Grounds(sys, who.id) && ChildGrounds(sys, who)
    requires LeavingTask(sys, who).pc.DeletionOwned? && who.key in LeavingCharged(sys, who).store.children
    requires t == Finished(LeavingCharged(sys, who), who, LeavingTask(sys, who), kept)
    ensures var p := sys.store.parents[who.id];
            && HasLeft(sys, t, who, kept)
            && ParentLeft(sys, t, who, kept, p.(children := p.children - {who.key}, saved := p.saved - {who.key}),
                          p.status)
  {
    var p, b, task := sys.store.parents[who.id], LeavingCharged(sys, who), LeavingTask(sys, who);
    LeavingFacts(sys, who);
    FinishedLeaves(b, who, task, kept);
    LeftSince(sys, b, t, who, kept, task.parent,
              p.(children := p.children - {who.key}, saved := p.saved - {who.key}), p.status);
  }

  /**
   From every state of every history in which the model is attached and nobody owns the parent: some steps of its
   own task alone remove both sides of the reference and, unless the path is kept, the link. Other children
   keep the parent as it is. An unused parent goes with its files exactly if no link, intent or consumer wants it.
   */
  lemma LeftAloneItLeaves(sys: Sys, who: Who, kept: bool) returns (t: Sys)
    requires SysInv(sys) && MayLeave(sys, who)
    requires !kept && who.path in sys.links ==> sys.links[who.path] == who.id
    ensures Leads(sys, t, who) && HasLeft(sys, t, who, kept)
    ensures var p := sys.store.parents[who.id];
            ParentLeft(sys, t, who, kept, p.(children := p.children - {who.key}, saved := p.saved - {who.key}),
                       p.status)
  {
    SysInvGrounds(sys, who);
    ReachIsClosed(sys, who);
    LeavingTakesCharge(Reach(sys, who), sys, who);
    LeavingFacts(sys, who);
    EndsFinished(Reach(sys, who), LeavingCharged(sys, who), who, LeavingTask(sys, who), kept);
    t := Finished(LeavingCharged(sys, who), who, LeavingTask(sys, who), kept);
    LeavingLeaves(sys, who, kept, t);
  }

  // ---- from a receipt ----

  function ReceiptOn(s: Store, key: ModelKey): Option<PendingDeletion> {
    if key in s.children then s.children[key].pendingDeletion else None
  }

  /** A receipt of this directory and path, whose parent is gone, free or owned by it and does not list the model. */
  predicate MayFinish(sys: Sys, who: Who) {
    && who.id !in sys.active && ReceiptOn(sys.store, who.key).Some?
    && var r := ReceiptOn(sys.store, who.key).value;
       && r.identity == who.id && r.parentPath == Home(sys.root, who.id) && r.childPath == who.path
       && (r.uid == who.uid || who.uid != "") && !Lists(sys.store, who.id, who.key)
       && (who.id in sys.store.parents && sys.store.parents[who.id].lockId != NO_LOCK ==>
             sys.store.parents[who.id].lockId == r.parentLock && sys.store.parents[who.id].children == map[])
  }

  lemma Resumes(sys: Sys, who: Who)
    requires MayFinish(sys, who)
    ensures var r := ReceiptOn(sys.store, who.key).value;
            ResumeReceipt(Goto(sys, who.id, Beginner(sys, who)), who.id) == Goto(sys, who.id, Leaver(sys, who, r))
  {
  }

  function ClaimedReceipt(sys: Sys, who: Who): PendingDeletion
    requires ReceiptOn(sys.store, who.key).Some?
  {
    ReceiptOn(sys.store, who.key).value.(uid := who.uid)
  }

  /** The state in which the receipt carries this task's UID. */
  function Claimed(sys: Sys, who: Who): Sys
    requires ReceiptOn(sys.store, who.key).Some?
  {
    if ReceiptOn(sys.store, who.key).value.uid == who.uid then sys
    else Written(sys, sys.store.(children := sys.store.children[who.key :=
           sys.store.children[who.key].(pendingDeletion := Some(ClaimedReceipt(sys, who)))]))
  }

  lemma Claims(sys: Sys, who: Who)
    requires MayFinish(sys, who) && Grounds(sys, who.id) && ChildGrounds(sys, who)
    requires ReceiptOn(sys.store, who.key).value.uid != who.uid
    ensures var r := ReceiptOn(sys.store, who.key).value;
            ClaimReceipt(Goto(sys, who.id, Leaver(sys, who, r)), who.id, true) ==
              Goto(Claimed(sys, who), who.id, Leaver(sys, who, ClaimedReceipt(sys, who)))
  {
    var r, absent := ReceiptOn(sys.store, who.key).value, !DirOf(sys, who.id).present;
    assert ClaimPendingDeletion(sys.store, who.key, who.uid, r, absent, true) == Done(Claimed(sys, who).store, ());
    CommitGoesOn(sys, who.id, Leaver(sys, who, r), Leaver(sys, who, ClaimedReceipt(sys, who)),
                 Claim(who.key, who.uid, r, absent, true), Claimed(sys, who).store);
  }

  lemma ClaimedMayTakeCharge(sys: Sys, who: Who)
    requires MayFinish(sys, who) && Grounds(sys, who.id) && ChildGrounds(sys, who)
    ensures MayTakeCharge(Claimed(sys, who), who, Leaver(sys, who, ClaimedReceipt(sys, who)))
  {
  }

  lemma Claiming(reach: iset<Sys>, sys: Sys, who: Who)
    requires Closed(reach, who) && sys in reach && MayFinish(sys, who) && Grounds(sys, who.id) && ChildGrounds(sys, who)
    ensures Goto(Claimed(sys, who), who.id, Leaver(sys, who, ClaimedReceipt(sys, who))) in reach
  {
    var r := ReceiptOn(sys.store, who.key).value;
    DoBegin(reach, who, sys, Blank(sys.root, who.id));
    Begins(sys, who);
    DoResume(reach, who, Goto(sys, who.id, Beginner(sys, who)));
    Resumes(sys, who);
    if r.uid != who.uid {
      DoClaim(reach, who, Goto(sys, who.id, Leaver(sys, who, r)));
      Claims(sys, who);
    } else {
      assert ClaimedReceipt(sys, who) == r;
    }
  }

  function ResumedCharged(sys: Sys, who: Who): Sys
    requires ReceiptOn(sys.store, who.key).Some?
  {
    Charged(Claimed(sys, who), who, Leaver(sys, who, ClaimedReceipt(sys, who)))
  }

  function ResumedTask(sys: Sys, who: Who): Task
    requires ReceiptOn(sys.store, who.key).Some?
  {
    TaskInCharge(Claimed(sys, who), who, Leaver(sys, who, ClaimedReceipt(sys, who)))
  }

  lemma ResumedChildren(sys: Sys, who: Who)
    requires MayFinish(sys, who)
    ensures var b := ResumedCharged(sys, who);
            && who.key in b.store.children && b.dirs == sys.dirs && SamePlaces(sys, b)
            && b.store.children == sys.store.children[who.key := b.store.children[who.key]]
            && b.store.children[who.key] ==
                 sys.store.children[who.key].(pendingDeletion := b.store.children[who.key].pendingDeletion)
            && (forall i :: i != who.id ==> Get(b.store.parents, i) == Get(sys.store.parents, i))
            && (who.id in b.store.parents <==> who.id in sys.store.parents)
  {
    var r := ClaimedReceipt(sys, who);
    var c := sys.store.children[who.key].(pendingDeletion := Some(r));
    PutTwice(sys.store.children, who.key, c,
             c.(pendingDeletion := Some(ReceiptInCharge(Claimed(sys, who), who, r))));
  }

  /** The status that an unused parent had before its deletion: as found, or as the receipt that owns it says. */
  function StatusFound(sys: Sys, who: Who): ParentStatus
    requires ReceiptOn(sys.store, who.key).Some? && who.id in sys.store.parents
  {
    var p := sys.store.parents[who.id];
    if p.lockId == NO_LOCK then p.status else ReceiptOn(sys.store, who.key).value.StatusBeforeDeletion()
  }

  lemma ParentTaken(sys: Sys, who: Who)
    requires MayFinish(sys, who) && who.id in sys.store.parents
    ensures var p, q := sys.store.parents[who.id], ParentInCharge(Claimed(sys, who), who);
            if p.children != map[] then q == p
            else q == p.(status := q.status, lockId := q.lockId, lastCompleted := q.lastCompleted)
    ensures sys.store.parents[who.id].children == map[] ==>
              ReceiptInCharge(Claimed(sys, who), who, ClaimedReceipt(sys, who)).StatusBeforeDeletion() ==
                StatusFound(sys, who)
  {
  }

  lemma ResumedParent(sys: Sys, who: Who)
    requires MayFinish(sys, who) && Grounds(sys, who.id) && ChildGrounds(sys, who)
    ensures var task := ResumedTask(sys, who);
            && InCharge(ResumedCharged(sys, who), who, task) && task.pc.found == (who.id in sys.store.parents)
            && (who.id in sys.store.parents ==>
                  var p := sys.store.parents[who.id];
                  if p.children != map[] then task.parent == p
                  else task.parent == p.(status := task.parent.status, lockId := task.parent.lockId,
                                         lastCompleted := task.parent.lastCompleted)
                         && task.receipt.StatusBeforeDeletion() == StatusFound(sys, who))
  {
    ClaimedMayTakeCharge(sys, who);
    ChargedIsInCharge(Claimed(sys, who), who, Leaver(sys, who, ClaimedReceipt(sys, who)));
    if who.id in sys.store.parents { ParentTaken(sys, who); }
  }

  /** A deletion with a receipt, taken up again, leaves what it would have left. */
  ghost predicate ResumedEnd(sys: Sys, t: Sys, who: Who, kept: bool) {
    && HasLeft(sys, t, who, kept) && ReceiptOn(sys.store, who.key).Some?
    && if who.id in sys.store.parents
       then ParentLeft(sys, t, who, kept, sys.store.parents[who.id], StatusFound(sys, who))
       else who.id !in t.store.parents && t.dirs == sys.dirs
  }

  lemma ResumedLeaves(sys: Sys, who: Who, kept: bool, t: Sys)
    requires MayFinish(sys, who) && Grounds(sys, who.id) && ChildGrounds(sys, who)
    requires ResumedTask(sys, who).pc.DeletionOwned? && who.key in ResumedCharged(sys, who).store.children
    requires t == Finished(ResumedCharged(sys, who), who, ResumedTask(sys, who), kept)
    ensures ResumedEnd(sys, t, who, kept)
  {
    var b, task := ResumedCharged(sys, who), ResumedTask(sys, who);
    ResumedChildren(sys, who);
    ResumedParent(sys, who);
    FinishedLeaves(b, who, task, kept);
    if task.pc.found {
      if task.parent.children == map[] {
        LeftSince(sys, b, t, who, kept, task.parent, sys.store.parents[who.id], StatusFound(sys, who));
      } else {
        LeftSince(sys, b, t, who, kept, task.parent, sys.store.parents[who.id], task.receipt.StatusBeforeDeletion());
      }
    } else {
      PutTwice(sys.store.children, who.key, b.store.children[who.key],
               b.store.children[who.key].(parentKey := None, pendingDeletion := None));
    }
  }

  lemma Resuming(reach: iset<Sys>, sys: Sys, who: Who, kept: bool) returns (t: Sys)
    requires Closed(reach, who) && sys in reach && MayFinish(sys, who) && Grounds(sys, who.id) && ChildGrounds(sys, who)
    requires !kept && who.path in sys.links ==> sys.links[who.path] == who.id
    ensures t in reach && ResumedEnd(sys, t, who, kept)
  {
    Claiming(reach, sys, who);
    ClaimedMayTakeCharge(sys, who);
    TakingCharge(reach, Claimed(sys, who), who, Leaver(sys, who, ClaimedReceipt(sys, who)));
    ResumedParent(sys, who);
    ResumedChildren(sys, who);
    EndsFinished(reach, ResumedCharged(sys, who), who, ResumedTask(sys, who), kept);
    t := Finished(ResumedCharged(sys, who), who, ResumedTask(sys, who), kept);
    ResumedLeaves(sys, who, kept, t);
  }

  /**
   From every state of every history in which the model has a receipt of this directory whose parent no other task
   owns: some steps of its own task alone finish the deletion, under the receipt's UID or a current one.
   */
  lemma LeftAloneItResumes(sys: Sys, who: Who, kept: bool) returns (t: Sys)
    requires SysInv(sys) && MayFinish(sys, who)
    requires !kept && who.path in sys.links ==> sys.links[who.path] == who.id
    ensures Leads(sys, t, who) && ResumedEnd(sys, t, who, kept)
  {
    SysInvGrounds(sys, who);
    ReachIsClosed(sys, who);
    t := Resuming(Reach(sys, who), sys, who, kept);
  }

  // ---- from an intent ----

  lemma DoAbandon(reach: iset<Sys>, who: Who, s: Sys, intent: PendingDownload)
    requires Closed(reach, who) && s in reach
    ensures AbandonIntent(s, who.id, intent, false, true) in reach
  {
    assert Act(s, AAbandonIntent(who.id, intent, false, true)) in reach;
  }

  /** The model intends to download here, under this task's UID or one that it replaces. */
  predicate MayAbandon(sys: Sys, who: Who) {
    && who.id !in sys.active && who.key in sys.store.children && sys.store.children[who.key].pendingDownload.Some?
    && var intent := sys.store.children[who.key].pendingDownload.value;
       && intent.identity == who.id && intent.parentPath == Home(sys.root, who.id) && intent.childPath == who.path
       && (intent.uid == who.uid || who.uid != "") && !Lists(sys.store, who.id, who.key)
       && (who.id in sys.store.parents ==> sys.store.parents[who.id].lockId == NO_LOCK)
  }

  function Abandoned(sys: Sys, who: Who): Sys
    requires who.key in sys.store.children && sys.store.children[who.key].pendingDownload.Some?
  {
    var child := sys.store.children[who.key];
    Written(sys, sys.store.(children := sys.store.children[who.key :=
      child.(pendingDownload := None, pendingDeletion := Some(child.pendingDownload.value.DeletionReceipt()))]))
  }

  lemma Abandons(sys: Sys, who: Who)
    requires MayAbandon(sys, who) && ChildGrounds(sys, who)
    ensures AbandonIntent(Goto(sys, who.id, Beginner(sys, who)), who.id,
                          sys.store.children[who.key].pendingDownload.value,
                          false, true) == Abandoned(sys, who)
  {
    var intent := sys.store.children[who.key].pendingDownload.value;
    assert BeginPendingDownloadDeletion(sys.store, who.key, who.uid, intent, false, true) ==
             Done(Abandoned(sys, who).store, ());
    CommitEnds(sys, who.id, Beginner(sys, who), BeginDownloadDeletion(who.key, who.uid, intent, false, true),
               Abandoned(sys, who).store);
  }

  lemma AbandonedMayFinish(sys: Sys, who: Who)
    requires MayAbandon(sys, who) && Grounds(sys, who.id) && ChildGrounds(sys, who)
    ensures var b := Abandoned(sys, who); MayFinish(b, who) && Grounds(b, who.id) && ChildGrounds(b, who)
  {
  }

  /** A model that only intended to download gives that up, and what it leaves is what its receipt then leaves. */
  lemma LeftAloneItGivesUp(sys: Sys, who: Who, kept: bool) returns (t: Sys)
    requires SysInv(sys) && MayAbandon(sys, who)
    requires !kept && who.path in sys.links ==> sys.links[who.path] == who.id
    ensures Leads(sys, t, who) && ResumedEnd(Abandoned(sys, who), t, who, kept)
  {
    SysInvGrounds(sys, who);
    ReachIsClosed(sys, who);
    var reach := Reach(sys, who);
    DoBegin(reach, who, sys, Blank(sys.root, who.id));
    Begins(sys, who);
    DoAbandon(reach, who, Goto(sys, who.id, Beginner(sys, who)), sys.store.children[who.key].pendingDownload.value);
    Abandons(sys, who);
    AbandonedMayFinish(sys, who);
    t := Resuming(reach, Abandoned(sys, who), who, kept);
  }

  // ---- giving the child up with its path preserved ----

  lemma DoGiveBack(reach: iset<Sys>, who: Who, s: Sys)
    requires Closed(reach, who) && s in reach
    ensures GiveBack(s, who.id, true, true) in reach
  {
    assert Act(s, AGiveBack(who.id, true, true)) in reach;
  }

  function Preserver(sys: Sys, who: Who): Task
    requires who.id in sys.store.parents
  {
    Beginner(sys, who).(pc := Preserving(sys.store.parents[who.id].status), parent := Left(sys, who))
  }

  lemma DetachesPreserving(sys: Sys, who: Who)
    requires MayLeave(sys, who) && Grounds(sys, who.id) && ChildGrounds(sys, who)
    ensures Detach(Goto(sys, who.id, Beginner(sys, who)), who.id, true, false, false) ==
              if Left(sys, who).children == map[] then Goto(Detached(sys, who, None), who.id, Preserver(sys, who))
              else Detached(sys, who, None)
  {
    var p := sys.store.parents[who.id];
    var op := RemoveReference(who.id, p, who.key, who.uid, who.path, false, false);
    DetachSucceeds(sys, who, false);
    CommitGoesOn(sys, who.id, Beginner(sys, who), Preserver(sys, who), op, DetachedStore(sys, who, None));
    CommitEnds(sys, who.id, Beginner(sys, who), op, DetachedStore(sys, who, None));
  }

  function Preserved(sys: Sys, who: Who): Sys
    requires who.id in sys.store.parents && who.key in sys.store.children
  {
    var b := Detached(sys, who, None);
    if Left(sys, who).children == map[]
    then Written(b,
                 GivenBack(b.store, who.id, Left(sys, who), sys.store.parents[who.id].status,
                           MarkerExists(sys, who.id)))
    else b
  }

  lemma PreservesLast(sys: Sys, who: Who)
    requires MayLeave(sys, who) && Grounds(sys, who.id) && Left(sys, who).children == map[]
    ensures var b, task := Detached(sys, who, None), Preserver(sys, who);
            && GiveBack(Goto(b, who.id, task), who.id, true, true) ==
                 Goto(Preserved(sys, who), who.id, task.(pc := DeletionDone))
            && Leave(Goto(Preserved(sys, who), who.id, task.(pc := DeletionDone)), who.id) == Preserved(sys, who)
  {
    var b, task := Detached(sys, who, None), Preserver(sys, who);
    GivesBack(b, who, task, sys.store.parents[who.id].status);
    assert sys.active[who.id := task.(pc := DeletionDone)] - {who.id} == sys.active;
  }

  lemma PreservedLeaves(sys: Sys, who: Who)
    requires MayLeave(sys, who) && Grounds(sys, who.id) && ChildGrounds(sys, who)
    ensures var t, p := Preserved(sys, who), sys.store.parents[who.id];
            && HasLeft(sys, t, who, true)
            && ParentLeft(sys, t, who, true, p.(children := p.children - {who.key}, saved := p.saved - {who.key}),
                          p.status)
  {
  }

  /** A model whose path is to be preserved leaves the records; link, files and a once Ready parent stay. */
  lemma LeftAloneItIsPreserved(sys: Sys, who: Who) returns (t: Sys)
    requires SysInv(sys) && MayLeave(sys, who)
    ensures Leads(sys, t, who) && HasLeft(sys, t, who, true)
    ensures var p := sys.store.parents[who.id];
            ParentLeft(sys, t, who, true, p.(children := p.children - {who.key}, saved := p.saved - {who.key}),
                       p.status)
  {
    SysInvGrounds(sys, who);
    ReachIsClosed(sys, who);
    var reach, b, task := Reach(sys, who), Detached(sys, who, None), Preserver(sys, who);
    DoBegin(reach, who, sys, Blank(sys.root, who.id));
    Begins(sys, who);
    DoDetach(reach, who, Goto(sys, who.id, Beginner(sys, who)), true, false);
    DetachesPreserving(sys, who);
    if Left(sys, who).children == map[] {
      DoGiveBack(reach, who, Goto(b, who.id, task));
      PreservesLast(sys, who);
      DoReturn(reach, who, Goto(Preserved(sys, who), who.id, task.(pc := DeletionDone)));
    }
    PreservedLeaves(sys, who);
    t := Preserved(sys, who);
  }

  // ---- a link without any record ----

  lemma DoStray(reach: iset<Sys>, who: Who, s: Sys)
    requires Closed(reach, who) && s in reach
    ensures RemoveStrayLink(s, who.id) in reach
  {
    assert Act(s, ARemoveStrayLink(who.id)) in reach;
  }

  /** The model is attached nowhere, and a parent that is not being worked on does not list it. */
  predicate IsStray(sys: Sys, who: Who) {
    && who.id !in sys.active && who.path in sys.links && sys.links[who.path] == who.id
    && (who.key in sys.store.children ==> sys.store.children[who.key].parentKey.None?)
    && (who.id in sys.store.parents ==>
        !Lists(sys.store, who.id, who.key) && sys.store.parents[who.id].lockId == NO_LOCK)
  }

  lemma RemovesStray(sys: Sys, who: Who)
    requires IsStray(sys, who) && Grounds(sys, who.id)
    ensures RemoveStrayLink(Goto(sys, who.id, Beginner(sys, who)), who.id) == Unlinking(sys, who)
  {
    assert sys.active[who.id := Beginner(sys, who)] - {who.id} == sys.active;
  }

  /** A link that no record knows is removed, and nothing else. */
  lemma LeftAloneItUnlinks(sys: Sys, who: Who)
    requires SysInv(sys) && IsStray(sys, who)
    ensures Leads(sys, sys.(links := sys.links - {who.path}), who)
  {
    SysInvGrounds(sys, who);
    ReachIsClosed(sys, who);
    DoBegin(Reach(sys, who), who, sys, Blank(sys.root, who.id));
    Begins(sys, who);
    DoStray(Reach(sys, who), who, Goto(sys, who.id, Beginner(sys, who)));
    RemovesStray(sys, who);
  }
}
