/**
 What every run of the handlers keeps: a parent is Ready only with a finished copy and its marker in
 place, and shared directories are only reset or removed while nobody can be using them.
 */
module HfProtocolProof {
  import opened HfTypes
  import opened HfRepository
  import opened HfRuns
  import opened HfProtocol

  // ---- the invariant, one identity at a time ----

  predicate ReadyAt(children: map<ModelKey, Child>, id: Identity, key: ModelKey) {
    key in children && children[key].parentKey == Some(id) && children[key].status == ModelReady
  }

  /** Some attached child is reported Ready. */
  predicate HasReadyChild(children: map<ModelKey, Child>, id: Identity) {
    exists key :: key in children && ReadyAt(children, id, key)
  }

  /** Everything the protocol can see of one identity. */
  datatype View = View(
    blank: Parent,
    rec: Option<Parent>,
    dir: Dir,
    noLinks: bool,
    noIntents: bool,
    readyChild: bool,
    task: Option<Task>,
    issued: map<LockId, LockKind>)

  function ViewOf(sys: Sys, id: Identity): View {
    View(Blank(sys.root, id),
         if id in sys.store.parents then Some(sys.store.parents[id]) else None,
         DirAt(sys.dirs, id), NoLinks(sys.links, id), NoIntents(sys.store.children, Home(sys.root, id)),
         HasReadyChild(sys.store.children, id),
         if id in sys.active then Some(sys.active[id]) else None,
         sys.issued)
  }

  predicate IsWork(issued: map<LockId, LockKind>, lock: LockId) {
    lock in issued && issued[lock] == ForWork
  }

  predicate IsDeletion(issued: map<LockId, LockKind>, lock: LockId, before: ParentStatus) {
    lock in issued && issued[lock] == ForDeletion(before)
  }

  /** The directory agrees with the lock that owns its record: only work locks leave markers. */
  predicate LockOk(issued: map<LockId, LockKind>, r: Parent, dir: Dir) {
    && r.lockId in issued
    && (issued[r.lockId] == ForWork ==> (dir.marker == Wrote(r.lockId) ==> dir.files == Whole))
    && (issued[r.lockId].ForDeletion? ==> r.children == map[])
    && (issued[r.lockId] == ForDeletion(Ready) && dir.marker != NoMarker ==> dir.files != Unfinished)
  }

  predicate DirOk(v: View) {
    && (!v.dir.present ==> v.dir.marker == NoMarker)
    && (v.dir.marker.Wrote? ==> IsWork(v.issued, v.dir.marker.lock))
    && (v.readyChild ==> v.dir.files != Unfinished)
  }

  predicate RecordOk(v: View) {
    v.rec.Some? ==>
      && v.rec.value.localPath == v.blank.localPath
      && (v.rec.value.status == Ready ==> v.dir.marker != NoMarker && v.dir.files != Unfinished)
      && (v.rec.value.lockId != NO_LOCK ==> LockOk(v.issued, v.rec.value, v.dir))
  }

  /** The local variable `parent` is the stored record, which this task owns. */
  predicate Owns(v: View, task: Task) {
    v.rec == Some(task.parent) && task.parent.status == Updating && task.parent.lockId != NO_LOCK
  }

  predicate ReceiptOk(issued: map<LockId, LockKind>, receipt: PendingDeletion) {
    receipt.parentLock != NO_LOCK ==> IsDeletion(issued, receipt.parentLock, receipt.StatusBeforeDeletion())
  }

  predicate DeletionLocals(v: View, task: Task, found: bool) {
    && ReceiptOk(v.issued, task.receipt)
    && (found ==> v.rec == Some(task.parent))
    && (OwnsUnreferenced(task, found) ==> Owns(v, task) && task.parent.lockId == task.receipt.parentLock)
  }

  /** A deletion owner that has seen no link. */
  predicate DeletesUnlinked(v: View, task: Task) {
    DeletionLocals(v, task, true) && OwnsUnreferenced(task, true) && v.noLinks
  }

  predicate Snapshot(v: View, task: Task, found: bool) {
    if found then v.rec == Some(task.parent) else v.rec.None? && Plausible(v.blank, task.parent)
  }

  /** Owner of a work lock that has not written its marker yet. */
  predicate Working(v: View, task: Task) {
    Owns(v, task) && IsWork(v.issued, task.parent.lockId) && v.dir.marker != Wrote(task.parent.lockId)
  }

  predicate IsReady(rec: Option<Parent>) {
    rec.Some? && rec.value.status == Ready
  }

  /** What each program point has established and still relies on. */
  predicate TaskOk(v: View, task: Task) {
    match task.pc
    case Start => Plausible(v.blank, task.parent)
    case Read(found) => Snapshot(v, task, found)
    case Remembered(found) => Snapshot(v, task, found)
    case Checked(found) => Snapshot(v, task, found) && task.parent.children == map[]
    case Reuse => Snapshot(v, task, true)
    case Owned(_) => Working(v, task)
    case Cleared => Working(v, task) && task.parent.children == map[] && v.noLinks
    case Corrupt => Working(v, task)
    case ChildrenFailed => Working(v, task) && !v.readyChild
    case Replaceable => Working(v, task) && !v.readyChild
    case Unmarked => Working(v, task) && !v.readyChild
    case Fetching => Working(v, task) && v.dir.present && !v.readyChild
    case Fetched => Working(v, task) && v.dir.present && v.dir.files == Whole
    case Marked => Owns(v, task) && IsWork(v.issued, task.parent.lockId)
      && v.dir == Dir(true, Wrote(task.parent.lockId), Whole)
    case Attaching => IsReady(v.rec)
    case Linked(_) => IsReady(v.rec)
    case Referenced(_) => IsReady(v.rec)
    case Deleting => ReceiptOk(v.issued, task.receipt) && task.receipt.identity == v.blank.localPath.identity
    case DeletionOwned(found) => DeletionLocals(v, task, found)
    case Unlinked(found) => DeletionLocals(v, task, found)
    case Scanned => DeletesUnlinked(v, task)
    case Unused => DeletesUnlinked(v, task) && v.noIntents
    case Removed => DeletesUnlinked(v, task) && v.dir == ABSENT
    case DeletionDone => true
    case Preserving(before) => Owns(v, task) && IsDeletion(v.issued, task.parent.lockId, before)
  }

  predicate ViewOk(v: View) {
    DirOk(v) && RecordOk(v) && (v.task.Some? ==> TaskOk(v, v.task.value))
  }

  ghost predicate ReceiptsOk(s: Store, issued: map<LockId, LockKind>) {
    forall key :: key in s.children && s.children[key].pendingDeletion.Some? ==>
      ReceiptOk(issued, s.children[key].pendingDeletion.value)
  }

  ghost predicate Globals(sys: Sys) {
    && Sane(World(sys.store, sys.next))
    && (forall lock :: lock in sys.issued ==> lock != NO_LOCK && lock < sys.next)
    && ReceiptsOk(sys.store, sys.issued)
  }

  ghost predicate SysInv(sys: Sys) {
    Globals(sys) && forall id :: ViewOk(ViewOf(sys, id))
  }

  // ---- what a step on another identity leaves alone ----

  ghost predicate Extends(a: map<LockId, LockKind>, b: map<LockId, LockKind>) {
    forall lock :: lock in a ==> lock in b && b[lock] == a[lock]
  }

  /**
   Nothing of this identity changed, except that links and intents may have gone and a child of a Ready
   parent become Ready.
   */
  ghost predicate SameView(v: View, v': View) {
    && v' == v.(noLinks := v'.noLinks, noIntents := v'.noIntents, readyChild := v'.readyChild, issued := v'.issued)
    && (v'.readyChild ==> v.readyChild || IsReady(v.rec))
    && (v.noLinks ==> v'.noLinks) && (v.noIntents ==> v'.noIntents)
    && Extends(v.issued, v'.issued)
  }

  lemma SameTaskOk(v: View, v': View, task: Task)
    requires TaskOk(v, task) && SameView(v, v')
    ensures TaskOk(v', task)
  {
  }

  lemma SameViewKeeps(v: View, v': View)
    requires ViewOk(v) && SameView(v, v')
    ensures ViewOk(v')
  {
    if v.task.Some? { SameTaskOk(v, v', v.task.value); }
  }

  ghost predicate OthersSame(a: Sys, b: Sys, id: Identity) {
    forall i :: i != id ==> SameView(ViewOf(a, i), ViewOf(b, i))
  }

  lemma Combine(a: Sys, b: Sys, id: Identity)
    requires forall i :: ViewOk(ViewOf(a, i))
    requires OthersSame(a, b, id) && ViewOk(ViewOf(b, id))
    ensures forall i :: ViewOk(ViewOf(b, i))
  {
    forall i ensures ViewOk(ViewOf(b, i)) {
      if i != id { SameViewKeeps(ViewOf(a, i), ViewOf(b, i)); }
    }
  }

  // ---- steps that touch no record ----

  /** A step on one identity that changes only its task, directory and links. */
  ghost predicate LocalStep(a: Sys, b: Sys, id: Identity) {
    && b == a.(dirs := b.dirs, links := b.links, active := b.active, releases := b.releases)
    && OthersSame(a, b, id) && ViewOk(ViewOf(b, id))
  }

  lemma LocalStepKeeps(a: Sys, b: Sys, id: Identity)
    requires SysInv(a) && LocalStep(a, b, id)
    ensures SysInv(b)
  {
    Combine(a, b, id);
  }

  lemma GotoView(sys: Sys, id: Identity, task: Task)
    ensures ViewOf(Goto(sys, id, task), id) == ViewOf(sys, id).(task := Some(task))
    ensures OthersSame(sys, Goto(sys, id, task), id)
  {
    forall i | i != id ensures ViewOf(Goto(sys, id, task), i) == ViewOf(sys, i) { }
  }

  lemma LeaveView(sys: Sys, id: Identity)
    ensures ViewOf(Leave(sys, id), id) == ViewOf(sys, id).(task := None)
    ensures OthersSame(sys, Leave(sys, id), id)
  {
    forall i | i != id ensures ViewOf(Leave(sys, id), i) == ViewOf(sys, i) { }
  }

  lemma DirView(sys: Sys, id: Identity, dir: Dir)
    ensures ViewOf(SetDir(sys, id, dir), id) == ViewOf(sys, id).(dir := dir)
    ensures OthersSame(sys, SetDir(sys, id, dir), id)
  {
    forall i | i != id ensures ViewOf(SetDir(sys, id, dir), i) == ViewOf(sys, i) { }
  }

  lemma DirGotoView(sys: Sys, id: Identity, dir: Dir, task: Task)
    ensures ViewOf(Goto(SetDir(sys, id, dir), id, task), id) == ViewOf(sys, id).(dir := dir, task := Some(task))
    ensures OthersSame(sys, Goto(SetDir(sys, id, dir), id, task), id)
  {
    var mid := SetDir(sys, id, dir);
    DirView(sys, id, dir);
    GotoView(mid, id, task);
    Trans(sys, mid, Goto(mid, id, task), id);
  }

  lemma UnlinkView(sys: Sys, id: Identity, path: Path)
    requires path in sys.links && sys.links[path] == id
    ensures var b := sys.(links := sys.links - {path});
            ViewOf(b, id) == ViewOf(sys, id).(noLinks := NoLinks(b.links, id)) && OthersSame(sys, b, id)
            && (NoLinks(sys.links, id) ==> NoLinks(b.links, id))
  {
    var b := sys.(links := sys.links - {path});
    forall i | i != id ensures SameView(ViewOf(sys, i), ViewOf(b, i)) { }
  }

  lemma LinkView(sys: Sys, id: Identity, path: Path)
    requires path in sys.links ==> sys.links[path] == id
    ensures var b := sys.(links := sys.links[path := id]);
            ViewOf(b, id) == ViewOf(sys, id).(noLinks := false) && OthersSame(sys, b, id)
  {
    var b := sys.(links := sys.links[path := id]);
    forall i | i != id ensures SameView(ViewOf(sys, i), ViewOf(b, i)) { }
    assert b.links[path] == id;
  }

  /** Moving the task alone is fine as soon as its new program point is. */
  lemma MoveTask(v: View, task: Task)
    requires ViewOk(v) && TaskOk(v, task)
    ensures ViewOk(v.(task := Some(task)))
  {
  }

  lemma DropTask(v: View)
    requires ViewOk(v)
    ensures ViewOk(v.(task := None))
  {
  }

  lemma Trans(a: Sys, b: Sys, c: Sys, id: Identity)
    requires OthersSame(a, b, id) && OthersSame(b, c, id)
    ensures OthersSame(a, c, id)
  {
    forall i | i != id ensures SameView(ViewOf(a, i), ViewOf(c, i)) {
      assert SameView(ViewOf(a, i), ViewOf(b, i)) && SameView(ViewOf(b, i), ViewOf(c, i));
    }
  }

  lemma Stay(sys: Sys, id: Identity)
    ensures OthersSame(sys, sys, id)
  {
  }

  lemma BeginStep(sys: Sys, id: Identity, key: ModelKey, uid: Uid, path: Path, seen: Parent)
    requires ViewOk(ViewOf(sys, id))
    ensures LocalStep(sys, Begin(sys, id, key, uid, path, seen), id)
  {
    Stay(sys, id);
    if id !in sys.active { GotoView(sys, id, Begin(sys, id, key, uid, path, seen).active[id]); }
  }

  lemma LeaveStep(sys: Sys, id: Identity)
    requires ViewOk(ViewOf(sys, id))
    ensures LocalStep(sys, Leave(sys, id), id)
  {
    Stay(sys, id);
    LeaveView(sys, id);
  }

  lemma ReadParentStep(sys: Sys, id: Identity)
    requires ViewOk(ViewOf(sys, id))
    ensures LocalStep(sys, ReadParent(sys, id), id)
  {
    Stay(sys, id);
    var v := ViewOf(sys, id);
    if At(sys, id, Start) {
      var found := id in sys.store.parents;
      var parent := if found then sys.store.parents[id] else sys.active[id].parent;
      if found && parent.BlocksNewOperation() && !MarkerMatches(sys, id, parent.lockId) {
        LeaveView(sys, id);
        DropTask(v);
      } else {
        var task := sys.active[id].(pc := Read(found), parent := parent);
        GotoView(sys, id, task);
        MoveTask(v, task);
      }
    }
  }

  lemma CheckInitialStep(sys: Sys, id: Identity)
    requires ViewOk(ViewOf(sys, id))
    ensures LocalStep(sys, CheckInitial(sys, id), id)
  {
    Stay(sys, id);
    var b := CheckInitial(sys, id);
    if b != sys { GotoView(sys, id, b.active[id]); }
  }

  lemma RecheckStep(sys: Sys, id: Identity)
    requires ViewOk(ViewOf(sys, id))
    ensures LocalStep(sys, Recheck(sys, id), id)
  {
    Stay(sys, id);
    var b := Recheck(sys, id);
    if b != sys { GotoView(sys, id, b.active[id]); }
  }

  lemma ValidateStep(sys: Sys, id: Identity, valid: bool)
    requires ViewOk(ViewOf(sys, id))
    ensures LocalStep(sys, Validate(sys, id, valid), id)
  {
    Stay(sys, id);
    var b := Validate(sys, id, valid);
    if b != sys { GotoView(sys, id, b.active[id]); }
  }

  lemma CheckUnrecordedStep(sys: Sys, id: Identity)
    requires ViewOk(ViewOf(sys, id))
    ensures LocalStep(sys, CheckUnrecorded(sys, id), id)
  {
    Stay(sys, id);
    var b := CheckUnrecorded(sys, id);
    if b != sys { GotoView(sys, id, b.active[id]); }
  }

  lemma ScannedOk(v: View, task: Task)
    requires TaskOk(v, task) && task.pc.Unlinked? && OwnsUnreferenced(task, task.pc.found) && v.noLinks
    ensures TaskOk(v, task.(pc := Scanned))
  {
  }

  lemma ScanLinksStep(sys: Sys, id: Identity)
    requires ViewOk(ViewOf(sys, id))
    ensures LocalStep(sys, ScanLinks(sys, id), id)
  {
    Stay(sys, id);
    if id in sys.active && sys.active[id].pc.Unlinked? {
      var v, task := ViewOf(sys, id), sys.active[id];
      if !OwnsUnreferenced(task, task.pc.found) {
        GotoView(sys, id, task.(pc := DeletionDone));
        MoveTask(v, task.(pc := DeletionDone));
      } else if task.parent.status == Updating && task.parent.lockId != NO_LOCK && NoLinks(sys.links, id) {
        GotoView(sys, id, task.(pc := Scanned));
        ScannedOk(v, task);
        MoveTask(v, task.(pc := Scanned));
      }
    }
  }

  lemma ScanIntentsStep(sys: Sys, id: Identity)
    requires ViewOk(ViewOf(sys, id))
    ensures LocalStep(sys, ScanIntents(sys, id), id)
  {
    Stay(sys, id);
    var b := ScanIntents(sys, id);
    if b != sys { GotoView(sys, id, b.active[id]); }
  }

  /** Whoever names this parent is listed by it, with a path. */
  ghost predicate ChildrenListed(s: Store, id: Identity) {
    forall key :: Names(s, id, key) ==>
      id in s.parents && key in s.parents[id].children && s.parents[id].children[key] != ""
  }

  lemma NoChildrenNoneReady(s: Store, id: Identity)
    requires ChildrenListed(s, id) && (id in s.parents ==> s.parents[id].children == map[])
    ensures !HasReadyChild(s.children, id)
  {
    forall key ensures !ReadyAt(s.children, id, key) { assert !Names(s, id, key); }
  }

  /** The directory of a parent without children, or of one whose children are all Failed, is emptied. */
  lemma EmptiedView(v: View, dir: Dir, task: Task)
    requires ViewOk(v) && !v.readyChild && v.task.Some? && dir.files == Unfinished
    requires !dir.present ==> dir.marker == NoMarker
    requires dir.marker == NoMarker || dir.marker == v.dir.marker
    requires v.rec == Some(v.task.value.parent) && v.task.value.parent.status == Updating
    requires IsWork(v.issued, v.task.value.parent.lockId)
    requires v.dir.marker != Wrote(v.task.value.parent.lockId) && TaskOk(v.(dir := dir), task)
    ensures ViewOk(v.(dir := dir, task := Some(task)))
  {
  }

  lemma ResetPartlyStep(sys: Sys, id: Identity, markerSurvives: bool)
    requires ViewOk(ViewOf(sys, id)) && ChildrenListed(sys.store, id)
    ensures LocalStep(sys, ResetPartly(sys, id, markerSurvives), id)
  {
    Stay(sys, id);
    var b := ResetPartly(sys, id, markerSurvives);
    if b != sys {
      DirView(sys, id, b.dirs[id]);
      NoChildrenNoneReady(sys.store, id);
      EmptiedView(ViewOf(sys, id), b.dirs[id], sys.active[id]);
    }
  }

  lemma RemovePartlyStep(sys: Sys, id: Identity, markerSurvives: bool)
    requires ViewOk(ViewOf(sys, id))
    ensures LocalStep(sys, RemovePartly(sys, id, markerSurvives), id)
  {
    Stay(sys, id);
    var b := RemovePartly(sys, id, markerSurvives);
    if b != sys { DirView(sys, id, b.dirs[id]); }
  }

  lemma ResetStep(sys: Sys, id: Identity)
    requires ViewOk(ViewOf(sys, id)) && ChildrenListed(sys.store, id)
    ensures LocalStep(sys, Reset(sys, id), id)
  {
    Stay(sys, id);
    var b := Reset(sys, id);
    if b != sys {
      DirGotoView(sys, id, b.dirs[id], b.active[id]);
      NoChildrenNoneReady(sys.store, id);
      EmptiedView(ViewOf(sys, id), b.dirs[id], b.active[id]);
    }
  }

  lemma RemoveMarkerStep(sys: Sys, id: Identity)
    requires ViewOk(ViewOf(sys, id))
    ensures LocalStep(sys, RemoveMarker(sys, id), id)
  {
    Stay(sys, id);
    var b := RemoveMarker(sys, id);
    if b != sys { DirGotoView(sys, id, b.dirs[id], b.active[id]); }
  }

  lemma ReplaceStep(sys: Sys, id: Identity)
    requires ViewOk(ViewOf(sys, id))
    ensures LocalStep(sys, Replace(sys, id), id)
  {
    Stay(sys, id);
    var b := Replace(sys, id);
    if b != sys { DirGotoView(sys, id, b.dirs[id], b.active[id]); }
  }

  lemma FinishFetchStep(sys: Sys, id: Identity)
    requires ViewOk(ViewOf(sys, id))
    ensures LocalStep(sys, FinishFetch(sys, id), id)
  {
    Stay(sys, id);
    var b := FinishFetch(sys, id);
    if b != sys { DirGotoView(sys, id, b.dirs[id], b.active[id]); }
  }

  lemma RemovedView(v: View, task: Task)
    requires ViewOk(v) && !v.readyChild && v.task.Some? && v.task.value.pc.Unused?
    requires task == v.task.value.(pc := Removed)
    ensures ViewOk(v.(dir := ABSENT, task := Some(task)))
  {
  }

  lemma RemoveDirStep(sys: Sys, id: Identity)
    requires ViewOk(ViewOf(sys, id)) && ChildrenListed(sys.store, id)
    ensures LocalStep(sys, RemoveDir(sys, id), id)
  {
    Stay(sys, id);
    var b := RemoveDir(sys, id);
    if b != sys {
      DirGotoView(sys, id, b.dirs[id], b.active[id]);
      NoChildrenNoneReady(sys.store, id);
      RemovedView(ViewOf(sys, id), b.active[id]);
    }
  }

  lemma WriteMarkerStep(sys: Sys, id: Identity, torn: bool)
    requires ViewOk(ViewOf(sys, id))
    ensures LocalStep(sys, WriteMarker(sys, id, torn), id)
  {
    Stay(sys, id);
    if At(sys, id, Fetched) {
      var b := WriteMarker(sys, id, torn);
      DirView(sys, id, b.dirs[id]);
      DirGotoView(sys, id, b.dirs[id], b.active[id]);
    }
  }

  lemma LinkedView(v: View, task: Task)
    requires ViewOk(v) && v.task.Some? && v.task.value.pc.Attaching? && task.pc.Linked?
    ensures ViewOk(v.(noLinks := false, task := Some(task)))
  {
  }

  lemma LinkStep(sys: Sys, id: Identity)
    requires ViewOk(ViewOf(sys, id))
    ensures LocalStep(sys, Link(sys, id), id)
  {
    Stay(sys, id);
    if At(sys, id, Attaching) && MarkerExists(sys, id) {
      var v, task := ViewOf(sys, id), sys.active[id];
      if task.path in sys.links && sys.links[task.path] != id {
        LeaveView(sys, id);
        DropTask(v);
      } else {
        var mid := sys.(links := sys.links[task.path := id]);
        var task' := task.(pc := Linked(task.path !in sys.links));
        LinkView(sys, id, task.path);
        GotoView(mid, id, task');
        Trans(sys, mid, Goto(mid, id, task'), id);
        LinkedView(v, task');
      }
    }
  }

  lemma RollbackStep(sys: Sys, id: Identity)
    requires ViewOk(ViewOf(sys, id))
    ensures LocalStep(sys, Rollback(sys, id), id)
  {
    Stay(sys, id);
    var b := Rollback(sys, id);
    if b != sys {
      var mid := sys.(links := sys.links - {sys.active[id].path});
      UnlinkView(sys, id, sys.active[id].path);
      LeaveView(mid, id);
      Trans(sys, mid, b, id);
    }
  }

  lemma RemoveStrayLinkStep(sys: Sys, id: Identity)
    requires ViewOk(ViewOf(sys, id))
    ensures LocalStep(sys, RemoveStrayLink(sys, id), id)
  {
    Stay(sys, id);
    LeaveView(sys, id);
    if At(sys, id, Start) && sys.active[id].path in sys.links && sys.links[sys.active[id].path] == id {
      var mid := sys.(links := sys.links - {sys.active[id].path});
      UnlinkView(sys, id, sys.active[id].path);
      LeaveView(mid, id);
      Trans(sys, mid, Leave(mid, id), id);
    }
  }

  lemma ResumeReceiptStep(sys: Sys, id: Identity)
    requires ViewOk(ViewOf(sys, id))
    requires ReceiptsOk(sys.store, sys.issued)
    ensures LocalStep(sys, ResumeReceipt(sys, id), id)
  {
    Stay(sys, id);
    if At(sys, id, Start) {
      var v, task := ViewOf(sys, id), sys.active[id];
      LeaveView(sys, id);
      DropTask(v);
      if task.key in sys.store.children && sys.store.children[task.key].pendingDeletion.Some? {
        var receipt := sys.store.children[task.key].pendingDeletion.value;
        var task' := task.(pc := Deleting, receipt := receipt);
        GotoView(sys, id, task');
        if receipt.identity == id { MoveTask(v, task'); }
      }
    }
  }

  lemma UnlinkedView(v: View, noLinks: bool)
    requires ViewOk(v) && v.task.Some? && v.task.value.pc.DeletionOwned? && (v.noLinks ==> noLinks)
    ensures ViewOk(v.(noLinks := noLinks, task := Some(v.task.value.(pc := Unlinked(v.task.value.pc.found)))))
  {
  }

  lemma UnlinkStep(sys: Sys, id: Identity)
    requires ViewOk(ViewOf(sys, id))
    ensures LocalStep(sys, Unlink(sys, id), id)
  {
    Stay(sys, id);
    if id in sys.active && sys.active[id].pc.DeletionOwned? {
      var v, task := ViewOf(sys, id), sys.active[id];
      var task' := task.(pc := Unlinked(task.pc.found));
      if task.path !in sys.links {
        GotoView(sys, id, task');
        UnlinkedView(v, v.noLinks);
      } else if sys.links[task.path] == id {
        var mid := sys.(links := sys.links - {task.path});
        UnlinkView(sys, id, task.path);
        GotoView(mid, id, task');
        UnlinkedView(v, NoLinks(mid.links, id));
        Trans(sys, mid, Goto(mid, id, task'), id);
      } else {
        LeaveView(sys, id);
        DropTask(v);
      }
    }
  }

  // ---- steps that commit a record mutation ----

  /** The parent an operation may change. */
  predicate Touches(op: Op, id: Identity) {
    match op
    case Acquire(i, _, _) => i == id
    case Release(i, _, _) => i == id
    case FailChildren(i, _) => i == id
    case AddReference(i, _, _, _, _, _) => i == id
    case RemoveReference(i, _, _, _, _, _, _) => i == id
    case DeleteParent(i, _) => i == id
    case Remember(i, _, _, _, _, _) => i == id
    case OwnDeletion(_, receipt, _, _) => receipt.identity == id
    case _ => true
  }

  predicate IsParentOp(op: Op) {
    op.Acquire? || op.Release? || op.FailChildren? || op.AddReference? || op.RemoveReference? || op.DeleteParent?
      || op.OwnDeletion?
  }

  /** No intent for another identity appears. */
  ghost predicate QuietIntents(s: Store, t: Store, id: Identity) {
    forall key ::
      && key in t.children && t.children[key].pendingDownload.Some?
      && t.children[key].pendingDownload.value.identity != id ==>
      key in s.children && s.children[key].pendingDownload == t.children[key].pendingDownload
  }

  ghost predicate NoNewIntents(s: Store, t: Store) {
    forall key :: key in t.children && t.children[key].pendingDownload.Some? ==>
      key in s.children && s.children[key].pendingDownload == t.children[key].pendingDownload
  }

  ghost predicate OtherParentsSame(s: Store, t: Store, id: Identity) {
    && (forall i :: i != id ==> (i in s.parents <==> i in t.parents))
    && (forall i :: i != id && i in s.parents ==> i in t.parents && s.parents[i] == t.parents[i])
  }

  lemma LockOpFrame(s: Store, op: Op, newLock: LockId, id: Identity)
    requires Touches(op, id) && (op.Acquire? || op.Release? || op.FailChildren? || op.DeleteParent?)
    ensures OtherParentsSame(s, ApplyOp(s, op, newLock), id) && NoNewIntents(s, ApplyOp(s, op, newLock))
  {
  }

  lemma ReferenceOpFrame(s: Store, op: Op, newLock: LockId, id: Identity)
    requires Touches(op, id) && (op.AddReference? || op.RemoveReference? || op.OwnDeletion?)
    ensures OtherParentsSame(s, ApplyOp(s, op, newLock), id) && NoNewIntents(s, ApplyOp(s, op, newLock))
  {
  }

  lemma ChildOpFrame(s: Store, op: Op, newLock: LockId, id: Identity)
    requires Touches(op, id) && !IsParentOp(op)
    ensures ApplyOp(s, op, newLock).parents == s.parents && QuietIntents(s, ApplyOp(s, op, newLock), id)
    ensures !op.Remember? ==> NoNewIntents(s, ApplyOp(s, op, newLock))
  {
  }

  lemma OpFrame(s: Store, op: Op, newLock: LockId, id: Identity)
    requires Touches(op, id)
    ensures OtherParentsSame(s, ApplyOp(s, op, newLock), id) && QuietIntents(s, ApplyOp(s, op, newLock), id)
    ensures !op.Remember? ==> NoNewIntents(s, ApplyOp(s, op, newLock))
  {
    if op.Acquire? || op.Release? || op.FailChildren? || op.DeleteParent? {
      LockOpFrame(s, op, newLock, id);
    } else if IsParentOp(op) {
      ReferenceOpFrame(s, op, newLock, id);
    } else {
      ChildOpFrame(s, op, newLock, id);
    }
  }

  predicate ReadyRecord(s: Store, id: Identity) {
    id in s.parents && s.parents[id].status == Ready
  }

  /** A child is newly reported Ready only under a Ready parent. */
  ghost predicate ReadyMoves(s: Store, t: Store) {
    forall id, key :: ReadyAt(t.children, id, key) ==>
      ReadyAt(s.children, id, key) || ReadyRecord(s, id) || ReadyRecord(t, id)
  }

  lemma LockOpReady(s: Store, op: Op, newLock: LockId)
    requires op.Acquire? || op.Release? || op.FailChildren? || op.DeleteParent?
    ensures ReadyMoves(s, ApplyOp(s, op, newLock))
  {
  }

  lemma ReferenceOpReady(s: Store, op: Op, newLock: LockId)
    requires op.AddReference? || op.RemoveReference? || op.OwnDeletion?
    ensures ReadyMoves(s, ApplyOp(s, op, newLock))
  {
  }

  lemma ChildOpReady(s: Store, op: Op, newLock: LockId)
    requires !IsParentOp(op)
    ensures ReadyMoves(s, ApplyOp(s, op, newLock))
  {
  }

  lemma OpReady(s: Store, op: Op, newLock: LockId)
    ensures ReadyMoves(s, ApplyOp(s, op, newLock))
  {
    if op.Acquire? || op.Release? || op.FailChildren? || op.DeleteParent? {
      LockOpReady(s, op, newLock);
    } else if IsParentOp(op) {
      ReferenceOpReady(s, op, newLock);
    } else {
      ChildOpReady(s, op, newLock);
    }
  }

  lemma ReadyCarried(s: Store, t: Store, id: Identity)
    requires ReadyMoves(s, t)
    ensures HasReadyChild(t.children, id) ==> HasReadyChild(s.children, id) || ReadyRecord(s, id) || ReadyRecord(t, id)
  {
    if HasReadyChild(t.children, id) {
      var key :| key in t.children && ReadyAt(t.children, id, key);
    }
  }

  lemma QuietView(a: Sys, b: Sys, i: Identity)
    requires a.root == b.root && a.dirs == b.dirs && a.links == b.links && Extends(a.issued, b.issued)
    requires (i in a.active <==> i in b.active) && (i in a.active ==> a.active[i] == b.active[i])
    requires i in a.store.parents <==> i in b.store.parents
    requires i in a.store.parents ==> a.store.parents[i] == b.store.parents[i]
    requires NoIntents(a.store.children, Home(a.root, i)) ==> NoIntents(b.store.children, Home(a.root, i))
    requires HasReadyChild(b.store.children, i) ==> HasReadyChild(a.store.children, i) || ReadyRecord(a.store, i)
    ensures SameView(ViewOf(a, i), ViewOf(b, i))
  {
  }

  lemma QuietNoIntents(s: Store, t: Store, id: Identity, home: DirPath)
    requires QuietIntents(s, t, id) && home.identity != id && NoIntents(s.children, home)
    ensures NoIntents(t.children, home)
  {
    forall key | key in t.children ensures !NamesDirectory(t.children[key], home.identity, home) {
      assert key in s.children ==> !NamesDirectory(s.children[key], home.identity, home);
    }
  }

  lemma StillNoIntents(s: Store, t: Store, home: DirPath)
    requires NoNewIntents(s, t) && NoIntents(s.children, home)
    ensures NoIntents(t.children, home)
  {
    forall key | key in t.children ensures !NamesDirectory(t.children[key], home.identity, home) {
      assert key in s.children ==> !NamesDirectory(s.children[key], home.identity, home);
    }
  }

  ghost predicate SameActiveElsewhere(a: Sys, b: Sys, id: Identity) {
    && (forall i :: i != id ==> (i in a.active <==> i in b.active))
    && (forall i :: i != id && i in a.active ==> i in b.active && a.active[i] == b.active[i])
  }

  /** `b` is `a` after one mutation for `id`; the task on `id` may have moved and a lock may have been issued. */
  ghost predicate CommitShape(a: Sys, b: Sys, id: Identity) {
    && b == a.(store := b.store, next := a.next + 1, active := b.active, releases := b.releases, issued := b.issued)
    && SameActiveElsewhere(a, b, id) && ReadyMoves(a.store, b.store)
    && Extends(a.issued, b.issued) && (forall lock :: lock in b.issued ==> lock in a.issued || lock == a.next)
  }

  ghost predicate Commits(a: Sys, b: Sys, id: Identity, op: Op) {
    && CommitShape(a, b, id)
    && Touches(op, id) && Allowed(World(a.store, a.next), op)
    && b.store == ApplyOp(a.store, op, a.next)
  }

  lemma CommitOthers(a: Sys, b: Sys, id: Identity, op: Op)
    requires Commits(a, b, id, op)
    ensures OthersSame(a, b, id)
  {
    OpFrame(a.store, op, a.next, id);
    OpReady(a.store, op, a.next);
    forall i | i != id ensures SameView(ViewOf(a, i), ViewOf(b, i)) {
      ReadyCarried(a.store, b.store, i);
      if NoIntents(a.store.children, Home(a.root, i)) {
        QuietNoIntents(a.store, b.store, id, Home(a.root, i));
      }
      QuietView(a, b, i);
    }
  }

  lemma CommitKeeps(a: Sys, b: Sys, id: Identity, op: Op)
    requires SysInv(a) && Commits(a, b, id, op)
    requires ViewOk(ViewOf(b, id)) && ReceiptsOk(b.store, b.issued)
    ensures SysInv(b)
  {
    CommitOthers(a, b, id, op);
    Combine(a, b, id);
    StepKeepsSane(World(a.store, a.next), op);
  }

  // ---- receipts and the locks they name ----

  predicate OldReceipt(s: Store, key: ModelKey, receipt: PendingDeletion) {
    && key in s.children && s.children[key].pendingDeletion.Some?
    && s.children[key].pendingDeletion.value.parentLock == receipt.parentLock
    && s.children[key].pendingDeletion.value.StatusBeforeDeletion() == receipt.StatusBeforeDeletion()
  }

  /** Outside reference removal and deletion ownership, receipts name no new lock. */
  ghost predicate NoNewReceipts(s: Store, t: Store) {
    forall key :: key in t.children && t.children[key].pendingDeletion.Some? ==>
      t.children[key].pendingDeletion.value.parentLock == NO_LOCK
        || OldReceipt(s, key, t.children[key].pendingDeletion.value)
  }

  lemma LockOpReceipts(s: Store, op: Op, newLock: LockId)
    requires op.Acquire? || op.Release? || op.FailChildren? || op.DeleteParent? || op.AddReference?
    ensures NoNewReceipts(s, ApplyOp(s, op, newLock))
  {
  }

  lemma ChildOpReceipts(s: Store, op: Op, newLock: LockId)
    requires !IsParentOp(op)
    ensures NoNewReceipts(s, ApplyOp(s, op, newLock))
  {
  }

  lemma ReceiptsStayOk(s: Store, t: Store, issued: map<LockId, LockKind>, issued': map<LockId, LockKind>)
    requires ReceiptsOk(s, issued) && NoNewReceipts(s, t) && Extends(issued, issued')
    ensures ReceiptsOk(t, issued')
  {
    forall key | key in t.children && t.children[key].pendingDeletion.Some?
      ensures ReceiptOk(issued', t.children[key].pendingDeletion.value)
    {
      var receipt := t.children[key].pendingDeletion.value;
      if receipt.parentLock != NO_LOCK {
        assert OldReceipt(s, key, receipt);
        assert ReceiptOk(issued, s.children[key].pendingDeletion.value);
      }
    }
  }

  /** A commit of an operation that creates no receipt with a lock. */
  lemma PlainCommitKeeps(a: Sys, b: Sys, id: Identity, op: Op)
    requires SysInv(a) && Commits(a, b, id, op) && !op.RemoveReference? && !op.OwnDeletion?
    requires ViewOk(ViewOf(b, id))
    ensures SysInv(b)
  {
    if IsParentOp(op) { LockOpReceipts(a.store, op, a.next); } else { ChildOpReceipts(a.store, op, a.next); }
    ReceiptsStayOk(a.store, b.store, a.issued, b.issued);
    CommitKeeps(a, b, id, op);
  }

  ghost predicate PlainCommits(a: Sys, b: Sys, id: Identity, op: Op) {
    Commits(a, b, id, op) && !op.RemoveReference? && !op.OwnDeletion?
  }

  /** A step on one identity whose result is fine there. */
  ghost predicate GoodStep(a: Sys, b: Sys, id: Identity) {
    LocalStep(a, b, id) || (ViewOk(ViewOf(b, id)) && exists op :: PlainCommits(a, b, id, op))
  }

  lemma GoodStepKeeps(a: Sys, b: Sys, id: Identity)
    requires SysInv(a) && GoodStep(a, b, id)
    ensures SysInv(b)
  {
    if LocalStep(a, b, id) {
      LocalStepKeeps(a, b, id);
    } else {
      var op :| PlainCommits(a, b, id, op);
      PlainCommitKeeps(a, b, id, op);
    }
  }

  /** What a single step may rely on. */
  ghost predicate Ctx(sys: Sys, id: Identity) {
    && ViewOk(ViewOf(sys, id))
    && sys.next != NO_LOCK && sys.next !in sys.issued
    && (id in sys.store.parents ==> LockShape(sys.store.parents[id]))
    && ChildrenListed(sys.store, id)
  }

  lemma SysInvGivesCtx(sys: Sys, id: Identity)
    requires SysInv(sys)
    ensures Ctx(sys, id)
  {
    assert ViewOk(ViewOf(sys, id));
    forall key | Names(sys.store, id, key) ensures Lists(sys.store, id, key) { }
  }

  lemma GotoCommits(sys: Sys, id: Identity, op: Op, task: Task)
    requires Touches(op, id) && Allowed(World(sys.store, sys.next), op)
    ensures Commits(sys, Goto(Commit(sys, op), id, task), id, op)
  {
    OpReady(sys.store, op, sys.next);
  }

  lemma LeaveCommits(sys: Sys, b: Sys, id: Identity, op: Op)
    requires Touches(op, id) && Allowed(World(sys.store, sys.next), op)
    requires b == Leave(Commit(sys, op), id).(releases := b.releases)
    ensures Commits(sys, b, id, op)
  {
    OpReady(sys.store, op, sys.next);
  }

  lemma LockGotoCommits(sys: Sys, id: Identity, op: Op, kind: LockKind, task: Task)
    requires Touches(op, id) && Allowed(World(sys.store, sys.next), op) && sys.next !in sys.issued
    ensures Commits(sys, Goto(CommitLock(sys, op, kind), id, task), id, op)
  {
    OpReady(sys.store, op, sys.next);
  }

  lemma LockLeaveCommits(sys: Sys, b: Sys, id: Identity, op: Op, kind: LockKind)
    requires Touches(op, id) && Allowed(World(sys.store, sys.next), op) && sys.next !in sys.issued
    requires b == Leave(CommitLock(sys, op, kind), id).(releases := b.releases)
    ensures Commits(sys, b, id, op)
  {
    OpReady(sys.store, op, sys.next);
  }

  lemma NoStep(sys: Sys, id: Identity)
    requires ViewOk(ViewOf(sys, id))
    ensures GoodStep(sys, sys, id)
  {
    Stay(sys, id);
  }

  // ---- releases ----

  lemma ReleaseRecord(s: Store, id: Identity, expected: Parent, status: ParentStatus, newLock: LockId)
    ensures
      var t := ApplyOp(s, Release(id, expected, status), newLock);
      t == s ||
      (id in s.parents && id in t.parents && OwnsLock(s.parents[id], expected)
       && t.parents[id].localPath == s.parents[id].localPath && t.parents[id].status == status
       && t.parents[id].lockId == NO_LOCK)
  {
  }

  predicate ReadyCarries(v: View, v': View) {
    v'.readyChild ==> v.readyChild || IsReady(v.rec) || IsReady(v'.rec)
  }

  lemma CommitView(a: Sys, b: Sys, id: Identity)
    requires CommitShape(a, b, id)
    ensures ViewOf(b, id) == ViewOf(a, id).(
              rec := if id in b.store.parents then Some(b.store.parents[id]) else None,
              noIntents := NoIntents(b.store.children, Home(a.root, id)),
              readyChild := HasReadyChild(b.store.children, id),
              task := if id in b.active then Some(b.active[id]) else None,
              issued := b.issued)
    ensures ReadyCarries(ViewOf(a, id), ViewOf(b, id))
  {
    ReadyCarried(a.store, b.store, id);
  }

  /** A released record needs a finished copy only if it was released as Ready. */
  lemma ReleasedView(v: View, v': View)
    requires ViewOk(v) && ReadyCarries(v, v') && v.rec.Some? && v'.rec.Some?
    requires v' == v.(rec := v'.rec, task := v'.task, noIntents := v'.noIntents, readyChild := v'.readyChild)
    requires v'.rec.value.localPath == v.rec.value.localPath && v'.rec.value.lockId == NO_LOCK
    requires v'.rec.value.status == Ready ==> v.dir.marker != NoMarker && v.dir.files != Unfinished
    requires v'.task.Some? ==> TaskOk(v', v'.task.value)
    ensures ViewOk(v')
  {
  }

  lemma IdleTaskOk(v: View, task: Task)
    requires (task.pc.Start? && Plausible(v.blank, task.parent)) || task.pc.DeletionDone?
    ensures TaskOk(v, task)
  {
  }

  /** A release by a handler that then stops, finishes deletion, or is still at its start. */
  lemma ReleaseKeeps(a: Sys, b: Sys, id: Identity, expected: Parent, status: ParentStatus)
    requires Ctx(a, id) && Commits(a, b, id, Release(id, expected, status)) && b.issued == a.issued
    requires id in b.active ==> (b.active[id].pc.Start? && a.active == b.active) || b.active[id].pc.DeletionDone?
    requires status == Ready && id in a.store.parents && OwnsLock(a.store.parents[id], expected) ==>
               DirOf(a, id).marker != NoMarker && DirOf(a, id).files != Unfinished
    ensures GoodStep(a, b, id)
  {
    var op := Release(id, expected, status);
    var v, v' := ViewOf(a, id), ViewOf(b, id);
    assert ViewOk(v);
    CommitView(a, b, id);
    ReleaseRecord(a.store, id, expected, status, a.next);
    if id in b.active {
      assert b.active[id].pc.Start? ==> TaskOk(v, b.active[id]);
      IdleTaskOk(v', b.active[id]);
    }
    if b.store != a.store {
      ReleasedView(v, v');
    }
    assert PlainCommits(a, b, id, op);
  }

  lemma RetryReleaseKeeps(sys: Sys, id: Identity, pending: Pending)
    requires Ctx(sys, id)
    ensures GoodStep(sys, RetryRelease(sys, id, pending), id)
  {
    NoStep(sys, id);
    var b := RetryRelease(sys, id, pending);
    if b != sys {
      ReleaseKeeps(sys, b, id, Blank(sys.root, id).(lockId := pending.lock),
                   if pending.interrupted then Updating else Failed);
    }
  }

  /** A marker matches only the work lock that wrote it, after it had finished. */
  lemma MarkerProvesWhole(sys: Sys, id: Identity, lock: LockId)
    requires ViewOk(ViewOf(sys, id)) && MarkerMatches(sys, id, lock)
    requires id in sys.store.parents && sys.store.parents[id].lockId == lock
    ensures DirOf(sys, id).files == Whole
  {
    var v := ViewOf(sys, id);
    assert LockOk(v.issued, v.rec.value, v.dir);
  }

  lemma FinishFromMarkerKeeps(sys: Sys, id: Identity)
    requires Ctx(sys, id)
    ensures GoodStep(sys, FinishFromMarker(sys, id), id)
  {
    NoStep(sys, id);
    var b := FinishFromMarker(sys, id);
    if b != sys {
      MarkerProvesWhole(sys, id, sys.store.parents[id].lockId);
      ReleaseKeeps(sys, b, id, sys.store.parents[id], Ready);
    }
  }

  lemma RecoverInterruptedKeeps(sys: Sys, id: Identity, expected: Parent)
    requires Ctx(sys, id)
    ensures GoodStep(sys, RecoverInterrupted(sys, id, expected), id)
  {
    NoStep(sys, id);
    var b := RecoverInterrupted(sys, id, expected);
    if b != sys {
      ReleaseKeeps(sys, b, id, expected, Updating);
    }
  }

  lemma DropKeeps(sys: Sys, b: Sys, id: Identity)
    requires Ctx(sys, id) && b == Leave(sys, id).(releases := b.releases)
    ensures GoodStep(sys, b, id)
  {
    LeaveStep(sys, id);
    assert ViewOf(b, id) == ViewOf(Leave(sys, id), id);
    forall i ensures ViewOf(b, i) == ViewOf(Leave(sys, id), i) { }
    assert LocalStep(sys, b, id);
  }

  lemma ReleaseLockKeeps(sys: Sys, id: Identity, interrupted: bool, commits: bool, heard: bool)
    requires Ctx(sys, id) && id in sys.active
    ensures GoodStep(sys, ReleaseLock(sys, id, interrupted, commits, heard), id)
  {
    var b := ReleaseLock(sys, id, interrupted, commits, heard);
    if commits {
      var status := if interrupted then Updating else Failed;
      LeaveCommits(sys, b, id, Release(id, sys.active[id].parent, status));
      ReleaseKeeps(sys, b, id, sys.active[id].parent, status);
    } else {
      DropKeeps(sys, b, id);
    }
  }

  lemma GiveUpKeeps(sys: Sys, id: Identity, interrupted: bool, commits: bool, heard: bool)
    requires Ctx(sys, id)
    ensures GoodStep(sys, GiveUp(sys, id, interrupted, commits, heard), id)
  {
    NoStep(sys, id);
    if id in sys.active && HoldsWorkLock(sys.active[id].pc) {
      ReleaseLockKeeps(sys, id, interrupted, commits, heard);
    }
  }

  /** Giving a parent back as Ready needs the marker; the copy was finished when the deletion took it. */
  lemma GivenBackIsFinished(v: View, lock: LockId, before: ParentStatus)
    requires ViewOk(v) && v.rec.Some? && v.rec.value.lockId == lock && lock != NO_LOCK
    requires IsDeletion(v.issued, lock, before)
    requires ReleaseTarget(before, v.dir.marker != NoMarker) == Ready
    ensures v.dir.marker != NoMarker && v.dir.files != Unfinished
  {
    assert LockOk(v.issued, v.rec.value, v.dir);
  }

  lemma ReleaseDeletionKeeps(sys: Sys, id: Identity, before: ParentStatus, commits: bool, heard: bool)
    requires Ctx(sys, id) && id in sys.active
    requires Owns(ViewOf(sys, id), sys.active[id]) && IsDeletion(sys.issued, sys.active[id].parent.lockId, before)
    ensures GoodStep(sys, ReleaseDeletion(sys, id, before, commits, heard), id)
  {
    var task := sys.active[id];
    var target := ReleaseTarget(before, MarkerExists(sys, id));
    var op := Release(id, task.parent, target);
    if target == Ready { GivenBackIsFinished(ViewOf(sys, id), task.parent.lockId, before); }
    if commits && heard {
      GotoCommits(sys, id, op, task.(pc := DeletionDone));
      ReleaseKeeps(sys, Goto(Commit(sys, op), id, task.(pc := DeletionDone)), id, task.parent, target);
    } else if commits && target == Ready {
      LeaveCommits(sys, Leave(Commit(sys, op), id), id, op);
      ReleaseKeeps(sys, Leave(Commit(sys, op), id), id, task.parent, target);
    } else if target == Ready {
      DropKeeps(sys, Leave(sys, id), id);
    } else {
      ReleaseLockKeeps(sys, id, target == Updating, commits, heard);
    }
  }

  lemma KeepForConsumerKeeps(sys: Sys, id: Identity, commits: bool, heard: bool)
    requires Ctx(sys, id)
    ensures GoodStep(sys, KeepForConsumer(sys, id, commits, heard), id)
  {
    NoStep(sys, id);
    if id in sys.active && sys.active[id].pc.DeletionOwned? {
      var v, task := ViewOf(sys, id), sys.active[id];
      assert ViewOk(v) && DeletionLocals(v, task, task.pc.found);
      if OwnsUnreferenced(task, task.pc.found) {
        ReleaseDeletionKeeps(sys, id, task.receipt.StatusBeforeDeletion(), commits, heard);
      } else {
        GotoView(sys, id, task.(pc := DeletionDone));
        IdleTaskOk(v, task.(pc := DeletionDone));
        MoveTask(v, task.(pc := DeletionDone));
        assert LocalStep(sys, Goto(sys, id, task.(pc := DeletionDone)), id);
      }
    }
  }

  lemma KeepForOthersKeeps(sys: Sys, id: Identity, commits: bool, heard: bool)
    requires Ctx(sys, id)
    ensures GoodStep(sys, KeepForOthers(sys, id, commits, heard), id)
  {
    NoStep(sys, id);
    if id in sys.active
      && ((sys.active[id].pc.Unlinked? && OwnsUnreferenced(sys.active[id], sys.active[id].pc.found))
          || sys.active[id].pc.Scanned?) {
      var v, task := ViewOf(sys, id), sys.active[id];
      assert ViewOk(v) && DeletionLocals(v, task, true);
      ReleaseDeletionKeeps(sys, id, task.receipt.StatusBeforeDeletion(), commits, heard);
    }
  }

  lemma GiveBackKeeps(sys: Sys, id: Identity, commits: bool, heard: bool)
    requires Ctx(sys, id)
    ensures GoodStep(sys, GiveBack(sys, id, commits, heard), id)
  {
    NoStep(sys, id);
    if id in sys.active && sys.active[id].pc.Preserving? {
      assert ViewOk(ViewOf(sys, id));
      ReleaseDeletionKeeps(sys, id, sys.active[id].pc.before, commits, heard);
    }
  }

  // ---- intents, acquisition and repair ----

  lemma SameRecordView(v: View, v': View)
    requires ViewOk(v) && ReadyCarries(v, v')
    requires v' == v.(task := v'.task, noIntents := v'.noIntents, readyChild := v'.readyChild, issued := v'.issued)
    requires Extends(v.issued, v'.issued)
    requires v'.task.Some? ==> TaskOk(v', v'.task.value)
    ensures ViewOk(v')
  {
  }

  /** Writing this task's intent leaves the record it read in place. */
  lemma IntentCommitKeeps(sys: Sys, b: Sys, id: Identity, op: Op)
    requires Ctx(sys, id) && Commits(sys, b, id, op) && op.Remember? && b.issued == sys.issued
    requires id in sys.active && sys.active[id].pc.Read?
    requires id in b.active && b.active[id] == sys.active[id].(pc := Remembered(sys.active[id].pc.found))
    ensures GoodStep(sys, b, id)
  {
    CommitView(sys, b, id);
    ChildOpFrame(sys.store, op, sys.next, id);
    SameRecordView(ViewOf(sys, id), ViewOf(b, id));
    assert PlainCommits(sys, b, id, op);
  }

  lemma RememberIntentKeeps(sys: Sys, id: Identity, blocked: bool)
    requires Ctx(sys, id)
    ensures GoodStep(sys, RememberIntent(sys, id, blocked), id)
  {
    NoStep(sys, id);
    var b := RememberIntent(sys, id, blocked);
    if id in sys.active && sys.active[id].pc.Read? {
      var task := sys.active[id];
      var op := Remember(id, task.parent.localPath, task.key, task.uid, task.path, blocked);
      GotoCommits(sys, id, op, task.(pc := Remembered(task.pc.found)));
      IntentCommitKeeps(sys, Goto(Commit(sys, op), id, task.(pc := Remembered(task.pc.found))), id, op);
      DropKeeps(sys, Leave(sys, id), id);
    }
  }

  /** A record that was just acquired: new work lock, same place. */
  lemma AcquiredView(v: View, v': View, newLock: LockId)
    requires ViewOk(v) && ReadyCarries(v, v') && v'.rec.Some?
    requires v' ==
               v.(rec := v'.rec, task := v'.task, noIntents := v'.noIntents, readyChild := v'.readyChild,
                  issued := v.issued[newLock := ForWork])
    requires newLock != NO_LOCK && newLock !in v.issued
    requires v'.rec.value.localPath == v.blank.localPath && v'.rec.value.lockId == newLock
    requires v'.rec.value.status == Updating
    requires v'.task.None? || (v'.task.value.pc.Owned? && v'.task.value.parent == v'.rec.value)
    ensures ViewOk(v')
  {
  }

  predicate AcquireResult(s: Store, expected: Parent, o: Outcome<Acquisition>, newLock: LockId, id: Identity)
    requires o.Done?
  {
    && id in o.store.parents && o.result.parent == o.store.parents[id] && o.store.children == s.children
    && (if o.result.acquired
        then o.store.parents[id].localPath == expected.localPath && o.store.parents[id].lockId == newLock
          && o.store.parents[id].status == Updating
        else o.store == s)
  }

  lemma AcquireRecord(s: Store, id: Identity, expected: Parent, repair: bool, newLock: LockId)
    requires id in s.parents ==> s.parents[id].localPath == expected.localPath
    ensures var o := TryAcquireLock(s, id, expected, repair, newLock); o.Done? ==>
              AcquireResult(s, expected, o, newLock, id)
  {
  }

  /** Taking the lock on this identity, whether the task hears about it or not. */
  lemma AcquireCommitView(sys: Sys, b: Sys, id: Identity, repair: bool, o: Outcome<Acquisition>)
    requires Ctx(sys, id) && CommitShape(sys, b, id) && id in sys.active
    requires sys.active[id].parent.localPath == Home(sys.root, id)
    requires b.issued == sys.issued[sys.next := ForWork]
    requires if o.Done? then b.store == o.store && AcquireResult(sys.store, sys.active[id].parent, o, sys.next, id)
             else b.store == sys.store
    requires id in b.active ==>
               o.Done? && b.active[id] ==
                 sys.active[id].(parent := o.result.parent, pc := if o.result.acquired then Owned(repair) else Reuse)
    ensures ViewOk(ViewOf(b, id))
  {
    CommitView(sys, b, id);
    if o.Done? && o.result.acquired {
      AcquiredView(ViewOf(sys, id), ViewOf(b, id), sys.next);
    } else {
      SameRecordView(ViewOf(sys, id), ViewOf(b, id));
    }
  }

  lemma SnapshotFacts(sys: Sys, id: Identity)
    requires ViewOk(ViewOf(sys, id)) && id in sys.active
    requires sys.active[id].pc.Read? || sys.active[id].pc.Remembered? || sys.active[id].pc.Checked?
             || sys.active[id].pc.Reuse?
    ensures sys.active[id].parent.localPath == Home(sys.root, id)
    ensures id !in sys.store.parents ==> Plausible(Blank(sys.root, id), sys.active[id].parent)
    ensures id in sys.store.parents ==> sys.active[id].parent == sys.store.parents[id]
  {
  }

  lemma AcquireParentKeeps(sys: Sys, id: Identity, repair: bool)
    requires Ctx(sys, id)
    ensures GoodStep(sys, AcquireParent(sys, id, repair), id)
  {
    if MayAcquire(sys, id, repair) {
      SnapshotFacts(sys, id);
      var task := sys.active[id];
      var o, op := TryAcquireLock(sys.store, id, task.parent, repair, sys.next), Acquire(id, task.parent, repair);
      if o.Done? {
        AcquireRecord(sys.store, id, task.parent, repair, sys.next);
        var task' := task.(parent := o.result.parent, pc := if o.result.acquired then Owned(repair) else Reuse);
        var b := Goto(CommitLock(sys, op, ForWork), id, task');
        LockGotoCommits(sys, id, op, ForWork, task');
        AcquireCommitView(sys, b, id, repair, o);
        assert PlainCommits(sys, b, id, op);
      } else {
        DropKeeps(sys, Leave(sys, id), id);
      }
    } else {
      NoStep(sys, id);
    }
  }

  lemma AcquireLostKeeps(sys: Sys, id: Identity, repair: bool)
    requires Ctx(sys, id)
    ensures GoodStep(sys, AcquireLost(sys, id, repair), id)
  {
    if MayAcquire(sys, id, repair) {
      SnapshotFacts(sys, id);
      var task := sys.active[id];
      var o, op := TryAcquireLock(sys.store, id, task.parent, repair, sys.next), Acquire(id, task.parent, repair);
      var b := AcquireLost(sys, id, repair);
      AcquireRecord(sys.store, id, task.parent, repair, sys.next);
      LockLeaveCommits(sys, b, id, op, ForWork);
      AcquireCommitView(sys, b, id, repair, o);
      assert PlainCommits(sys, b, id, op);
    } else {
      NoStep(sys, id);
    }
  }

  lemma FailRecord(s: Store, id: Identity, expected: Parent)
    requires MarkChildrenFailed(s, id, expected).Done?
    ensures var o := MarkChildrenFailed(s, id, expected);
            id in s.parents && id in o.store.parents && o.result == o.store.parents[id]
            && o.result == s.parents[id].(saved := o.result.saved)
  {
  }

  lemma SavedChangeView(v: View, v': View, saved: map<ModelKey, ModelStatus>)
    requires ViewOk(v) && !v'.readyChild && v.task.Some? && v.task.value.pc.Corrupt?
    requires v' ==
               v.(rec := Some(v.task.value.parent.(saved := saved)), noIntents := v'.noIntents,
                  readyChild := v'.readyChild,
                      task := Some(v.task.value.(parent := v.task.value.parent.(saved := saved), pc := ChildrenFailed)))
    ensures ViewOk(v')
  {
  }

  /** Every attached child was listed with a path, so none is left Ready. */
  lemma FailedChildrenNotReady(s: Store, id: Identity)
    requires id in s.parents && MarkChildrenFailed(s, id, s.parents[id]).Done? && ChildrenListed(s, id)
    ensures !HasReadyChild(MarkChildrenFailed(s, id, s.parents[id]).store.children, id)
  {
    var t := MarkChildrenFailed(s, id, s.parents[id]).store;
    forall key | key in t.children ensures !ReadyAt(t.children, id, key) {
      assert s.children[key].parentKey == Some(id) ==> Names(s, id, key);
    }
  }

  lemma FailedCommitView(sys: Sys, b: Sys, id: Identity)
    requires Ctx(sys, id) && CommitShape(sys, b, id) && b.issued == sys.issued && At(sys, id, Corrupt)
    requires var o := MarkChildrenFailed(sys.store, id, sys.active[id].parent);
             && o.Done? && b.store == o.store
             && id in b.active && b.active[id] == sys.active[id].(parent := o.result, pc := ChildrenFailed)
    ensures ViewOk(ViewOf(b, id))
  {
    CommitView(sys, b, id);
    FailRecord(sys.store, id, sys.active[id].parent);
    FailedChildrenNotReady(sys.store, id);
    SavedChangeView(ViewOf(sys, id), ViewOf(b, id), b.store.parents[id].saved);
  }

  lemma FailAttachedKeeps(sys: Sys, id: Identity)
    requires Ctx(sys, id)
    ensures GoodStep(sys, FailAttached(sys, id), id)
  {
    NoStep(sys, id);
    if At(sys, id, Corrupt) && MarkChildrenFailed(sys.store, id, sys.active[id].parent).Done? {
      var task, op := sys.active[id], FailChildren(id, sys.active[id].parent);
      var task' := task.(parent := MarkChildrenFailed(sys.store, id, task.parent).result, pc := ChildrenFailed);
      var b := Goto(Commit(sys, op), id, task');
      GotoCommits(sys, id, op, task');
      FailedCommitView(sys, b, id);
      assert PlainCommits(sys, b, id, op);
    }
  }

  lemma PublishedRecord(s: Store, id: Identity, expected: Parent)
    requires SetStatus(s, id, expected, Ready).Done?
    ensures var t := SetStatus(s, id, expected, Ready).store;
            id in s.parents && id in t.parents && t.parents[id].status == Ready
              && t.parents[id].localPath == s.parents[id].localPath
            && (t.parents[id].lockId == NO_LOCK)
               && (s.parents[id].status != Ready ==> OwnsLock(s.parents[id], expected))
  {
  }

  /** Publishing Ready and going on to attach. */
  lemma PublishCommitKeeps(sys: Sys, b: Sys, id: Identity)
    requires Ctx(sys, id) && id in sys.active && SetStatus(sys.store, id, sys.active[id].parent, Ready).Done?
    requires Commits(sys, b, id, Release(id, sys.active[id].parent, Ready)) && b.issued == sys.issued
    requires id in b.active && b.active[id] == sys.active[id].(pc := Attaching)
    requires DirOf(sys, id).marker != NoMarker && DirOf(sys, id).files != Unfinished
    ensures GoodStep(sys, b, id)
  {
    var op := Release(id, sys.active[id].parent, Ready);
    assert ViewOk(ViewOf(sys, id));
    CommitView(sys, b, id);
    PublishedRecord(sys.store, id, sys.active[id].parent);
    ReleasedView(ViewOf(sys, id), ViewOf(b, id));
    assert PlainCommits(sys, b, id, op);
  }

  lemma PublishReadyKeeps(sys: Sys, id: Identity)
    requires Ctx(sys, id)
    ensures GoodStep(sys, PublishReady(sys, id), id)
  {
    if At(sys, id, Marked) && SetStatus(sys.store, id, sys.active[id].parent, Ready).Done? {
      var task := sys.active[id];
      var op := Release(id, task.parent, Ready);
      GotoCommits(sys, id, op, task.(pc := Attaching));
      PublishCommitKeeps(sys, Goto(Commit(sys, op), id, task.(pc := Attaching)), id);
    } else {
      NoStep(sys, id);
    }
  }

  lemma ReuseFromMarkerKeeps(sys: Sys, id: Identity)
    requires Ctx(sys, id) && id in sys.active && id in sys.store.parents
    requires sys.active[id].parent == sys.store.parents[id]
    requires MarkerMatches(sys, id, sys.active[id].parent.lockId)
    requires SetStatus(sys.store, id, sys.active[id].parent, Ready).Done?
    ensures GoodStep(sys,
                     Goto(Commit(sys, Release(id, sys.active[id].parent, Ready)), id,
                          sys.active[id].(pc := Attaching)), id)
  {
    var task := sys.active[id];
    var op := Release(id, task.parent, Ready);
    MarkerProvesWhole(sys, id, task.parent.lockId);
    GotoCommits(sys, id, op, task.(pc := Attaching));
    PublishCommitKeeps(sys, Goto(Commit(sys, op), id, task.(pc := Attaching)), id);
  }

  lemma ReuseReadyStep(sys: Sys, id: Identity)
    requires Ctx(sys, id) && id in sys.active && IsReady(ViewOf(sys, id).rec)
    ensures LocalStep(sys, Goto(sys, id, sys.active[id].(pc := Attaching)), id)
  {
    var task := sys.active[id].(pc := Attaching);
    GotoView(sys, id, task);
    MoveTask(ViewOf(sys, id), task);
  }

  lemma ReuseParentKeeps(sys: Sys, id: Identity)
    requires Ctx(sys, id)
    ensures GoodStep(sys, ReuseParent(sys, id), id)
  {
    if id in sys.active && (sys.active[id].pc == Remembered(true) || sys.active[id].pc == Reuse) {
      var task := sys.active[id];
      assert Snapshot(ViewOf(sys, id), task, true);
      if task.parent.status == Ready {
        ReuseReadyStep(sys, id);
      } else if task.parent.status == Updating && MarkerMatches(sys, id, task.parent.lockId)
        && SetStatus(sys.store, id, task.parent, Ready).Done? {
        ReuseFromMarkerKeeps(sys, id);
      } else {
        DropKeeps(sys, Leave(sys, id), id);
      }
    } else {
      NoStep(sys, id);
    }
  }

  lemma ReferencedRecord(s: Store, id: Identity, expected: Parent, key: ModelKey, uid: Uid, path: Path, blocked: bool,
                         newLock: LockId)
    requires id in s.parents && s.parents[id].status == Ready
    ensures var t := ApplyOp(s, AddReference(id, expected, key, uid, path, blocked), newLock);
            id in t.parents && t.parents[id] == s.parents[id].(children := t.parents[id].children)
  {
  }

  /** Adding a reference changes only the child list of a Ready record. */
  lemma ReferencedView(v: View, v': View)
    requires ViewOk(v) && ReadyCarries(v, v') && IsReady(v.rec) && v.rec.value.lockId == NO_LOCK && v.task.Some?
    requires v.task.value.pc.Linked? && v'.rec.Some?
    requires v' ==
               v.(rec := Some(v.rec.value.(children := v'.rec.value.children)), noIntents := v'.noIntents,
                  readyChild := v'.readyChild,
                      task := Some(v.task.value.(pc := Referenced(v.task.value.pc.created))))
    ensures ViewOk(v')
  {
  }

  lemma ReferenceKeeps(sys: Sys, id: Identity, blocked: bool)
    requires Ctx(sys, id)
    ensures GoodStep(sys, Reference(sys, id, blocked), id)
  {
    if id in sys.active && sys.active[id].pc.Linked? {
      var task := sys.active[id];
      var op := AddReference(id, task.parent, task.key, task.uid, task.path, blocked);
      var task' := task.(pc := Referenced(task.pc.created));
      var b := Goto(Commit(sys, op), id, task');
      GotoCommits(sys, id, op, task');
      CommitView(sys, b, id);
      assert IsReady(ViewOf(sys, id).rec) && LockShape(sys.store.parents[id]);
      ReferencedRecord(sys.store, id, task.parent, task.key, task.uid, task.path, blocked, sys.next);
      ReferencedView(ViewOf(sys, id), ViewOf(b, id));
      assert PlainCommits(sys, b, id, op);
    } else {
      NoStep(sys, id);
    }
  }

  // ---- deletion ----

  /** Receipts after a commit that issued `sys.next` for a deletion. */
  ghost predicate NewReceiptsNamed(s: Store, t: Store, newLock: LockId, before: ParentStatus) {
    forall key :: key in t.children && t.children[key].pendingDeletion.Some? ==>
      var receipt := t.children[key].pendingDeletion.value;
      receipt.parentLock == NO_LOCK || OldReceipt(s, key, receipt)
        || (receipt.parentLock == newLock && receipt.StatusBeforeDeletion() == before)
  }

  lemma NamedReceiptsOk(s: Store, t: Store, issued: map<LockId, LockKind>, newLock: LockId, before: ParentStatus)
    requires ReceiptsOk(s, issued) && NewReceiptsNamed(s, t, newLock, before) && newLock !in issued
    ensures ReceiptsOk(t, issued[newLock := ForDeletion(before)])
  {
    var issued' := issued[newLock := ForDeletion(before)];
    forall key | key in t.children && t.children[key].pendingDeletion.Some?
      ensures ReceiptOk(issued', t.children[key].pendingDeletion.value)
    {
      var receipt := t.children[key].pendingDeletion.value;
      if receipt.parentLock != NO_LOCK && OldReceipt(s, key, receipt) {
        assert ReceiptOk(issued, s.children[key].pendingDeletion.value);
      }
    }
  }

  /** A commit that may issue a deletion lock, with its receipts. */
  ghost predicate DeletionStep(a: Sys, b: Sys, id: Identity) {
    ViewOk(ViewOf(b, id)) && ReceiptsOk(b.store, b.issued) && exists op :: Commits(a, b, id, op)
  }

  lemma DeletionStepKeeps(a: Sys, b: Sys, id: Identity)
    requires SysInv(a) && DeletionStep(a, b, id)
    ensures SysInv(b)
  {
    var op :| Commits(a, b, id, op);
    CommitKeeps(a, b, id, op);
  }

  /** The record after one child was detached: still as idle as before, or owned by a deletion when it was the last. */
  ghost predicate RemovedResult(s: Store, o: Outcome<Removal>, newLock: LockId, id: Identity, before: ParentStatus)
    requires o.Done?
  {
    && id in s.parents && s.parents[id].status == before && id in o.store.parents
       && o.store.parents[id] == o.result.artifact
    && o.result.artifact.localPath == s.parents[id].localPath
    && NewReceiptsNamed(s, o.store, newLock, before)
    && (if o.result.last
        then o.result.artifact.children == map[] && o.result.artifact.status == Updating
          && o.result.artifact.lockId == newLock
        else o.result.artifact.status == before && o.result.artifact.lockId == NO_LOCK)
  }

  lemma RemovedReference(s: Store, id: Identity, key: ModelKey, uid: Uid, path: Path, pending: bool, blocked: bool,
                         newLock: LockId)
    requires id in s.parents && LockShape(s.parents[id]) && !s.parents[id].BlocksNewOperation()
    requires var o := RemoveModelReference(s, id, s.parents[id], key, uid, path, pending, blocked, newLock);
             o.Done? && o.result.removed
    ensures
      var o := RemoveModelReference(s, id, s.parents[id], key, uid, path, pending, blocked, newLock);
      RemovedResult(s, o, newLock, id, s.parents[id].status)
  {
  }

  /** Detaching a child: the record stays as it was, or passes to a new deletion owner. */
  lemma DetachedView(v: View, v': View, newLock: LockId, before: ParentStatus)
    requires ViewOk(v) && ReadyCarries(v, v') && v.rec.Some? && v.rec.value.status == before && v'.rec.Some?
    requires newLock !in v.issued && newLock != NO_LOCK
    requires v' ==
               v.(rec := v'.rec, task := v'.task, noIntents := v'.noIntents, readyChild := v'.readyChild,
                  issued := v.issued[newLock := ForDeletion(before)])
    requires v'.rec.value.localPath == v.rec.value.localPath
    requires (v'.rec.value.status == before && v'.rec.value.lockId == NO_LOCK)
          || (v'.rec.value.status == Updating && v'.rec.value.lockId == newLock && v'.rec.value.children == map[])
    requires v'.task.Some? ==> TaskOk(v', v'.task.value)
    ensures ViewOk(v')
  {
  }

  lemma DetachCommitView(sys: Sys, b: Sys, id: Identity, o: Outcome<Removal>, before: ParentStatus)
    requires Ctx(sys, id) && ReceiptsOk(sys.store, sys.issued) && CommitShape(sys, b, id)
    requires o.Done? && b.store == o.store && RemovedResult(sys.store, o, sys.next, id, before)
    requires b.issued == sys.issued[sys.next := ForDeletion(before)]
    requires id in b.active ==>
               || (b.active[id].pc.Deleting? && ReceiptOk(b.issued, b.active[id].receipt)
                   && b.active[id].receipt.identity == id)
               || (b.active[id].pc == Preserving(before) && o.result.last && b.active[id].parent == o.result.artifact)
    ensures ViewOk(ViewOf(b, id)) && ReceiptsOk(b.store, b.issued)
  {
    CommitView(sys, b, id);
    NamedReceiptsOk(sys.store, b.store, sys.issued, sys.next, before);
    DetachedView(ViewOf(sys, id), ViewOf(b, id), sys.next, before);
  }

  /** The detaching task goes on to delete or to give the parent back. */
  lemma DetachGoesOn(sys: Sys, id: Identity, op: Op, o: Outcome<Removal>, before: ParentStatus, task: Task)
    requires Ctx(sys, id) && ReceiptsOk(sys.store, sys.issued) && op.RemoveReference? && op.id == id
    requires o.Done? && ApplyOp(sys.store, op, sys.next) == o.store && RemovedResult(sys.store, o, sys.next, id, before)
    requires if task.pc.Preserving? then task.pc.before == before && o.result.last && task.parent == o.result.artifact
             else
               && task.pc.Deleting? && task.receipt.identity == id
               && task.receipt.parentLock == o.result.artifact.lockId && task.receipt.StatusBeforeDeletion() == before
    ensures DeletionStep(sys, Goto(CommitLock(sys, op, ForDeletion(before)), id, task), id)
  {
    var b := Goto(CommitLock(sys, op, ForDeletion(before)), id, task);
    LockGotoCommits(sys, id, op, ForDeletion(before), task);
    DetachCommitView(sys, b, id, o, before);
  }

  lemma DetachStops(sys: Sys, id: Identity, op: Op, o: Outcome<Removal>, before: ParentStatus)
    requires Ctx(sys, id) && ReceiptsOk(sys.store, sys.issued) && op.RemoveReference? && op.id == id
    requires o.Done? && ApplyOp(sys.store, op, sys.next) == o.store && RemovedResult(sys.store, o, sys.next, id, before)
    ensures DeletionStep(sys, Leave(CommitLock(sys, op, ForDeletion(before)), id), id)
  {
    var b := Leave(CommitLock(sys, op, ForDeletion(before)), id);
    LockLeaveCommits(sys, b, id, op, ForDeletion(before));
    DetachCommitView(sys, b, id, o, before);
  }

  lemma DetachRemovedKeeps(sys: Sys, id: Identity, parent: Parent, preserve: bool, retain: bool, blocked: bool)
    requires Ctx(sys, id) && ReceiptsOk(sys.store, sys.issued)
    requires At(sys, id, Start) && id in sys.store.parents && parent == sys.store.parents[id]
    requires !parent.BlocksNewOperation()
    requires var task := sys.active[id];
             var o := RemoveModelReference(sys.store, id, parent, task.key, task.uid, task.path, !preserve
                                           || retain, blocked, sys.next);
             o.Done? && o.result.removed
    ensures DeletionStep(sys, Detach(sys, id, preserve, retain, blocked), id)
  {
    var task, pending := sys.active[id], !preserve || retain;
    var o := RemoveModelReference(sys.store, id, parent, task.key, task.uid, task.path, pending, blocked, sys.next);
    var op := RemoveReference(id, parent, task.key, task.uid, task.path, pending, blocked);
    RemovedReference(sys.store, id, task.key, task.uid, task.path, pending, blocked, sys.next);
    if preserve && o.result.last {
      DetachGoesOn(sys, id, op, o, parent.status, task.(pc := Preserving(parent.status), parent := o.result.artifact));
    } else if preserve {
      DetachStops(sys, id, op, o, parent.status);
    } else {
      var receipt :=
        PendingDeletion(id, parent.localPath, task.path, task.uid, o.result.artifact.lockId, parent.status == Ready,
                        Some(parent.status));
      DetachGoesOn(sys, id, op, o, parent.status, task.(pc := Deleting, receipt := receipt));
    }
  }

  lemma DetachKeeps(sys: Sys, id: Identity, preserve: bool, retain: bool, blocked: bool)
    requires Ctx(sys, id) && ReceiptsOk(sys.store, sys.issued)
    ensures var b := Detach(sys, id, preserve, retain, blocked); GoodStep(sys, b, id) || DeletionStep(sys, b, id)
  {
    if At(sys, id, Start) && id in sys.store.parents && !sys.store.parents[id].BlocksNewOperation() {
      var task, parent := sys.active[id], sys.store.parents[id];
      var o := RemoveModelReference(sys.store, id, parent, task.key, task.uid, task.path, !preserve
                                    || retain, blocked, sys.next);
      if o.Done? && o.result.removed {
        DetachRemovedKeeps(sys, id, parent, preserve, retain, blocked);
      } else {
        DropKeeps(sys, Leave(sys, id), id);
      }
    } else {
      NoStep(sys, id);
    }
  }

  lemma ClaimCommitKeeps(sys: Sys, b: Sys, id: Identity, op: Op)
    requires Ctx(sys, id) && Commits(sys, b, id, op) && op.Claim? && b.issued == sys.issued
    requires id in sys.active && sys.active[id].pc.Deleting?
    requires id in b.active
    requires b.active[id] == sys.active[id].(receipt := sys.active[id].receipt.(uid := sys.active[id].uid))
    ensures GoodStep(sys, b, id)
  {
    CommitView(sys, b, id);
    ChildOpFrame(sys.store, op, sys.next, id);
    SameRecordView(ViewOf(sys, id), ViewOf(b, id));
    assert PlainCommits(sys, b, id, op);
  }

  lemma ClaimReceiptKeeps(sys: Sys, id: Identity, proven: bool)
    requires Ctx(sys, id)
    ensures GoodStep(sys, ClaimReceipt(sys, id, proven), id)
  {
    NoStep(sys, id);
    if At(sys, id, Deleting) {
      var task := sys.active[id];
      var op := Claim(task.key, task.uid, task.receipt, !DirOf(sys, id).present, proven);
      var task' := task.(receipt := task.receipt.(uid := task.uid));
      GotoCommits(sys, id, op, task');
      ClaimCommitKeeps(sys, Goto(Commit(sys, op), id, task'), id, op);
      DropKeeps(sys, Leave(sys, id), id);
    }
  }

  /**
   What taking over a deletion leaves on the record: the receipt's own lock, or a new one on an idle,
   unused parent.
   */
  ghost predicate OwnedResult(s: Store, receipt: PendingDeletion, o: Outcome<DeletionOwner>, newLock: LockId,
                              id: Identity)
    requires o.Done?
  {
    && o.result.receipt.identity == id
    && (o.result.lookup.Found? ==> id in o.store.parents && o.store.parents[id] == o.result.lookup.parent)
    && NewReceiptsNamed(s, o.store, newLock, o.result.receipt.StatusBeforeDeletion())
    && (if o.store == s then
          && o.result.receipt == receipt
          && (o.result.lookup.Found? && o.result.lookup.parent.children == map[] && receipt.parentLock != NO_LOCK ==>
                o.result.lookup.parent.status == Updating && o.result.lookup.parent.lockId == receipt.parentLock)
        else
          && id in s.parents && id in o.store.parents && o.result.lookup.Found?
             && o.store.parents[id].localPath == s.parents[id].localPath
          && o.store.parents[id].status == Updating && o.store.parents[id].lockId == newLock
             && o.store.parents[id].children == map[]
          && o.result.receipt.parentLock == newLock && o.result.receipt.StatusBeforeDeletion() == s.parents[id].status)
  }

  lemma OwnedDeletion(s: Store, key: ModelKey, receipt: PendingDeletion, absent: bool, blocked: bool, newLock: LockId)
    requires DeletionParent(s, key, receipt, absent, blocked, newLock).Done? && newLock != NO_LOCK
    requires receipt.identity in s.parents ==>
               LockShape(s.parents[receipt.identity]) && s.parents[receipt.identity].lockId != newLock
    ensures OwnedResult(s, receipt, DeletionParent(s, key, receipt, absent, blocked, newLock), newLock,
                        receipt.identity)
  {
  }

  /** The parent a task takes over for deletion, and what the task then holds. */
  predicate OwnedAs(sys: Sys, task: Task, task': Task, o: Outcome<DeletionOwner>, id: Identity) {
    o.Done? &&
    task' == task.(pc := DeletionOwned(o.result.lookup.Found?), receipt := o.result.receipt,
                   parent := if o.result.lookup.Found? then o.result.lookup.parent else Blank(sys.root, id))
  }

  /** Nothing had to be written: the receipt's own lock is in place, or other children are. */
  lemma ResumedView(v: View, v': View, task: Task)
    requires ViewOk(v) && ReadyCarries(v, v')
    requires v' == v.(task := Some(task), noIntents := v'.noIntents, readyChild := v'.readyChild, issued := v'.issued)
    requires Extends(v.issued, v'.issued)
    requires task.pc.DeletionOwned? && DeletionLocals(v', task, task.pc.found)
    ensures ViewOk(v')
  {
    SameRecordView(v, v');
  }

  lemma OwnParentReceipts(sys: Sys, b: Sys, id: Identity, o: Outcome<DeletionOwner>)
    requires ReceiptsOk(sys.store, sys.issued) && sys.next !in sys.issued && id in sys.active
    requires o.Done? && b.store == o.store && OwnedResult(sys.store, sys.active[id].receipt, o, sys.next, id)
    requires b.issued == sys.issued[sys.next := ForDeletion(o.result.receipt.StatusBeforeDeletion())]
    ensures ReceiptsOk(b.store, b.issued)
  {
    NamedReceiptsOk(sys.store, b.store, sys.issued, sys.next, o.result.receipt.StatusBeforeDeletion());
  }

  lemma OwnParentCommitView(sys: Sys, b: Sys, id: Identity, o: Outcome<DeletionOwner>, task: Task)
    requires Ctx(sys, id) && CommitShape(sys, b, id)
    requires At(sys, id, Deleting) && ReceiptOk(sys.issued, sys.active[id].receipt)
    requires o.Done? && b.store == o.store && OwnedResult(sys.store, sys.active[id].receipt, o, sys.next, id)
    requires b.issued == sys.issued[sys.next := ForDeletion(o.result.receipt.StatusBeforeDeletion())]
    requires id in b.active && b.active[id] == task && OwnedAs(sys, sys.active[id], task, o, id)
    ensures ViewOk(ViewOf(b, id))
  {
    var v, v' := ViewOf(sys, id), ViewOf(b, id);
    CommitView(sys, b, id);
    if o.store == sys.store {
      assert DeletionLocals(v', task, task.pc.found);
      ResumedView(v, v', task);
    } else {
      assert DeletionLocals(v', task, true);
      DetachedView(v, v', sys.next, o.result.receipt.StatusBeforeDeletion());
    }
  }

  lemma OwnParentDoneKeeps(sys: Sys, id: Identity, blocked: bool, o: Outcome<DeletionOwner>)
    requires Ctx(sys, id) && ReceiptsOk(sys.store, sys.issued) && At(sys, id, Deleting)
    requires o ==
               DeletionParent(sys.store, sys.active[id].key, sys.active[id].receipt, !DirOf(sys, id).present, blocked,
                              sys.next)
    requires o.Done?
    ensures DeletionStep(sys, OwnParent(sys, id, blocked), id)
  {
    var task, absent := sys.active[id], !DirOf(sys, id).present;
    var op, kind := OwnDeletion(task.key, task.receipt, absent, blocked),
      ForDeletion(o.result.receipt.StatusBeforeDeletion());
    OwnedDeletion(sys.store, task.key, task.receipt, absent, blocked, sys.next);
    var task' := task.(pc := DeletionOwned(o.result.lookup.Found?), receipt := o.result.receipt,
                       parent := if o.result.lookup.Found? then o.result.lookup.parent else Blank(sys.root, id));
    LockGotoCommits(sys, id, op, kind, task');
    OwnParentCommitView(sys, Goto(CommitLock(sys, op, kind), id, task'), id, o, task');
    OwnParentReceipts(sys, Goto(CommitLock(sys, op, kind), id, task'), id, o);
  }

  lemma OwnParentKeeps(sys: Sys, id: Identity, blocked: bool)
    requires Ctx(sys, id) && ReceiptsOk(sys.store, sys.issued)
    ensures var b := OwnParent(sys, id, blocked); GoodStep(sys, b, id) || DeletionStep(sys, b, id)
  {
    if At(sys, id, Deleting) {
      var task := sys.active[id];
      var o := DeletionParent(sys.store, task.key, task.receipt, !DirOf(sys, id).present, blocked, sys.next);
      if o.Done? {
        OwnParentDoneKeeps(sys, id, blocked, o);
      } else {
        DropKeeps(sys, Leave(sys, id), id);
      }
    } else {
      NoStep(sys, id);
    }
  }

  // ---- the last steps of a deletion, and writes without a parent ----

  lemma DeletedRecord(s: Store, id: Identity, expected: Parent, newLock: LockId)
    ensures var t := ApplyOp(s, DeleteParent(id, expected), newLock);
            t == s || (id in s.parents && t == s.(parents := s.parents - {id}))
  {
  }

  lemma GoneView(v: View, v': View)
    requires ViewOk(v) && ReadyCarries(v, v')
    requires v' == v.(rec := None, task := v'.task, noIntents := v'.noIntents, readyChild := v'.readyChild)
    requires v'.task.Some? ==> v'.task.value.pc.DeletionDone?
    ensures ViewOk(v')
  {
  }

  lemma DeleteRecordKeeps(sys: Sys, id: Identity)
    requires Ctx(sys, id)
    ensures GoodStep(sys, DeleteRecord(sys, id), id)
  {
    if At(sys, id, Removed) {
      var task := sys.active[id].(pc := DeletionDone);
      var op := DeleteParent(id, task.parent);
      var b := Goto(Commit(sys, op), id, task);
      GotoCommits(sys, id, op, task);
      CommitView(sys, b, id);
      DeletedRecord(sys.store, id, task.parent, sys.next);
      if b.store == sys.store {
        SameRecordView(ViewOf(sys, id), ViewOf(b, id));
      } else {
        GoneView(ViewOf(sys, id), ViewOf(b, id));
      }
      assert PlainCommits(sys, b, id, op);
    } else {
      NoStep(sys, id);
    }
  }

  /** A write that changes no parent record, by a task that then stops. */
  lemma LastWriteKeeps(sys: Sys, id: Identity, op: Op)
    requires Ctx(sys, id) && (op.FinishDeletion? || op.BeginDownloadDeletion?)
    ensures GoodStep(sys, Leave(Commit(sys, op), id), id)
  {
    var b := Leave(Commit(sys, op), id);
    LeaveCommits(sys, b, id, op);
    CommitView(sys, b, id);
    ChildOpFrame(sys.store, op, sys.next, id);
    SameRecordView(ViewOf(sys, id), ViewOf(b, id));
    assert PlainCommits(sys, b, id, op);
  }

  lemma FinishReceiptKeeps(sys: Sys, id: Identity, blocked: bool)
    requires Ctx(sys, id)
    ensures GoodStep(sys, FinishReceipt(sys, id, blocked), id)
  {
    if At(sys, id, DeletionDone) {
      LastWriteKeeps(sys, id, FinishDeletion(sys.active[id].key, sys.active[id].receipt, blocked));
    } else {
      NoStep(sys, id);
    }
  }

  lemma AbandonIntentKeeps(sys: Sys, id: Identity, intent: PendingDownload, blocked: bool, proven: bool)
    requires Ctx(sys, id)
    ensures GoodStep(sys, AbandonIntent(sys, id, intent, blocked, proven), id)
  {
    if At(sys, id, Start) && intent.identity == id {
      LastWriteKeeps(sys, id, BeginDownloadDeletion(sys.active[id].key, sys.active[id].uid, intent, blocked, proven));
    } else {
      NoStep(sys, id);
    }
  }

  /** A model write changes no parent record, adds no intent, and reports Ready only under a Ready parent. */
  lemma ModelWriteSame(sys: Sys, op: Op, id: Identity)
    requires IsModelWrite(op)
    ensures SameView(ViewOf(sys, id), ViewOf(Commit(sys, op), id))
  {
    var b := Commit(sys, op);
    ChildOpFrame(sys.store, op, sys.next, id);
    ChildOpReady(sys.store, op, sys.next);
    ReadyCarried(sys.store, b.store, id);
    if NoIntents(sys.store.children, Home(sys.root, id)) {
      StillNoIntents(sys.store, b.store, Home(sys.root, id));
    }
    QuietView(sys, b, id);
  }

  lemma ModelWriteCommits(sys: Sys, op: Op, id: Identity)
    requires IsModelWrite(op)
    ensures PlainCommits(sys, Commit(sys, op), id, op)
  {
    OpReady(sys.store, op, sys.next);
  }
}
