/**
 What the handlers are for: a task that is left alone reaches its end. From every state that a history can
 reach, a model joins its shared directory, and leaves it again, by the steps of its own task.
 */
module HfProgress {
  import opened HfTypes
  import opened HfRepository
  import opened HfRuns
  import opened HfRepair
  import opened HfProtocol
  import opened HfProtocolProof
  import opened Maps

  /** A task: its directory, and the model with its UID and path. */
  datatype Who = Who(id: Identity, key: ModelKey, uid: Uid, path: Path)

  /** A step of this task, begun by nobody else. */
  predicate IsOf(a: Action, who: Who) {
    !a.AModelWrite? && !a.AForgetRelease? && a.id == who.id
      && (a.ABegin? ==> a.key == who.key && a.uid == who.uid && a.path == who.path)
  }

  function {:tailrecursion false} PlayActs(sys: Sys, acts: seq<Action>): Sys {
    if acts == [] then sys else Act(PlayActs(sys, acts[..|acts| - 1]), acts[|acts| - 1])
  }

  predicate LedBy(sys: Sys, t: Sys, who: Who, acts: seq<Action>) {
    (forall i :: 0 <= i < |acts| ==> IsOf(acts[i], who)) && PlayActs(sys, acts) == t
  }

  /** Some steps of this task alone lead from one state to the other. */
  ghost predicate Leads(sys: Sys, t: Sys, who: Who) {
    exists acts :: LedBy(sys, t, who, acts)
  }

  lemma LeadsNowhere(sys: Sys, who: Who)
    ensures Leads(sys, sys, who)
  {
    assert LedBy(sys, sys, who, []);
  }

  lemma LeadsOn(sys: Sys, t: Sys, who: Who, a: Action)
    requires Leads(sys, t, who) && IsOf(a, who)
    ensures Leads(sys, Act(t, a), who)
  {
    var acts :| LedBy(sys, t, who, acts);
    assert (acts + [a])[..|acts|] == acts;
    assert LedBy(sys, Act(t, a), who, acts + [a]);
  }

  /** Whatever lies in the set still does after a step of this task. */
  ghost predicate Closed(reach: iset<Sys>, who: Who) {
    forall s, a :: s in reach && IsOf(a, who) ==> Act(s, a) in reach
  }

  ghost function Reach(sys: Sys, who: Who): iset<Sys> {
    iset t | Leads(sys, t, who)
  }

  lemma ReachIsClosed(sys: Sys, who: Who)
    ensures Closed(Reach(sys, who), who) && sys in Reach(sys, who)
  {
    LeadsNowhere(sys, who);
    forall s, a | s in Reach(sys, who) && IsOf(a, who) ensures Act(s, a) in Reach(sys, who) { LeadsOn(sys, s, who, a); }
  }

  // ---- single steps ----

  lemma DoBegin(reach: iset<Sys>, who: Who, s: Sys, seen: Parent)
    requires Closed(reach, who) && s in reach
    ensures Begin(s, who.id, who.key, who.uid, who.path, seen) in reach
  {
    assert Act(s, ABegin(who.id, who.key, who.uid, who.path, seen)) in reach;
  }

  lemma DoReturn(reach: iset<Sys>, who: Who, s: Sys)
    requires Closed(reach, who) && s in reach
    ensures Leave(s, who.id) in reach
  {
    assert Act(s, AReturn(who.id)) in reach;
  }

  lemma DoOpen(reach: iset<Sys>, who: Who, s: Sys)
    requires Closed(reach, who) && s in reach
    ensures ReadParent(s, who.id) in reach && RememberIntent(s, who.id, false) in reach
  {
    assert Act(s, AReadParent(who.id)) in reach;
    assert Act(s, ARememberIntent(who.id, false)) in reach;
  }

  lemma DoRecover(reach: iset<Sys>, who: Who, s: Sys, expected: Parent)
    requires Closed(reach, who) && s in reach
    ensures RecoverInterrupted(s, who.id, expected) in reach
  {
    assert Act(s, ARecoverInterrupted(who.id, expected)) in reach;
  }

  lemma DoFinish(reach: iset<Sys>, who: Who, s: Sys)
    requires Closed(reach, who) && s in reach
    ensures FinishFromMarker(s, who.id) in reach
  {
    assert Act(s, AFinishFromMarker(who.id)) in reach;
  }

  lemma DoReuse(reach: iset<Sys>, who: Who, s: Sys)
    requires Closed(reach, who) && s in reach
    ensures ReuseParent(s, who.id) in reach
  {
    assert Act(s, AReuseParent(who.id)) in reach;
  }

  lemma DoPublish(reach: iset<Sys>, who: Who, s: Sys)
    requires Closed(reach, who) && s in reach
    ensures PublishReady(s, who.id) in reach
  {
    assert Act(s, APublishReady(who.id)) in reach;
  }

  lemma DoMark(reach: iset<Sys>, who: Who, s: Sys)
    requires Closed(reach, who) && s in reach
    ensures WriteMarker(s, who.id, false) in reach
  {
    assert Act(s, AWriteMarker(who.id, false)) in reach;
  }

  lemma DoValidate(reach: iset<Sys>, who: Who, s: Sys, valid: bool)
    requires Closed(reach, who) && s in reach
    ensures Validate(s, who.id, valid) in reach
  {
    assert Act(s, AValidate(who.id, valid)) in reach;
  }

  lemma DoFail(reach: iset<Sys>, who: Who, s: Sys)
    requires Closed(reach, who) && s in reach
    ensures FailAttached(s, who.id) in reach && CheckUnrecorded(s, who.id) in reach
  {
    assert Act(s, AFailAttached(who.id)) in reach;
    assert Act(s, ACheckUnrecorded(who.id)) in reach;
  }

  lemma DoReplace(reach: iset<Sys>, who: Who, s: Sys)
    requires Closed(reach, who) && s in reach
    ensures RemoveMarker(s, who.id) in reach && Replace(s, who.id) in reach
  {
    assert Act(s, ARemoveMarker(who.id)) in reach;
    assert Act(s, AReplace(who.id)) in reach;
  }

  lemma DoAcquire(reach: iset<Sys>, who: Who, s: Sys, repair: bool)
    requires Closed(reach, who) && s in reach
    ensures CheckInitial(s, who.id) in reach && AcquireParent(s, who.id, repair) in reach
  {
    assert Act(s, ACheckInitial(who.id)) in reach;
    assert Act(s, AAcquire(who.id, repair)) in reach;
  }

  lemma DoReset(reach: iset<Sys>, who: Who, s: Sys)
    requires Closed(reach, who) && s in reach
    ensures Recheck(s, who.id) in reach && Reset(s, who.id) in reach
  {
    assert Act(s, ARecheck(who.id)) in reach;
    assert Act(s, AReset(who.id)) in reach;
  }

  lemma DoFetch(reach: iset<Sys>, who: Who, s: Sys)
    requires Closed(reach, who) && s in reach
    ensures FinishFetch(s, who.id) in reach
  {
    assert Act(s, AFinishFetch(who.id)) in reach;
  }

  lemma DoAttach(reach: iset<Sys>, who: Who, s: Sys)
    requires Closed(reach, who) && s in reach
    ensures Link(s, who.id) in reach && Reference(s, who.id, false) in reach
  {
    assert Act(s, ALink(who.id)) in reach;
    assert Act(s, AReference(who.id, false)) in reach;
  }

  // ---- what a task finds ----

  function IntentOf(sys: Sys, who: Who): PendingDownload {
    PendingDownload(who.id, Home(sys.root, who.id), who.path, who.uid)
  }

  /** The model's record allows it: no receipt, no other task's intent, no other parent and no other path. */
  predicate ChildMayJoin(sys: Sys, who: Who) {
    && who.key != "" && who.path != "" && who.key in sys.store.children
    && sys.store.children[who.key].pendingDeletion.None?
    && (sys.store.children[who.key].pendingDownload.None?
        || sys.store.children[who.key].pendingDownload == Some(IntentOf(sys, who)))
    && (sys.store.children[who.key].parentKey.None? || sys.store.children[who.key].parentKey == Some(who.id))
    && (Lists(sys.store, who.id, who.key) ==> sys.store.parents[who.id].children[who.key] == who.path)
  }

  /** And so does the path, which is free or already linked to this directory. */
  predicate MayJoin(sys: Sys, who: Who) {
    ChildMayJoin(sys, who) && who.id !in sys.active && (who.path in sys.links ==> sys.links[who.path] == who.id)
  }

  /** Both sides of the reference and the link are there, the parent is Ready and the intent used up. */
  predicate Joined(sys: Sys, who: Who) {
    && Lists(sys.store, who.id, who.key) && Names(sys.store, who.id, who.key)
    && sys.store.parents[who.id].children[who.key] == who.path && sys.store.parents[who.id].status == Ready
    && sys.store.children[who.key].pendingDownload.None?
    && who.path in sys.links && sys.links[who.path] == who.id && who.id !in sys.active
  }

  /** Nothing but this task's own model, directory and link is touched. */
  ghost predicate OnlyOwn(a: Sys, b: Sys, who: Who) {
    && (forall k :: k != who.key ==> Get(b.store.children, k) == Get(a.store.children, k))
    && OthersUntouched(a, b, who)
  }

  ghost predicate OthersUntouched(a: Sys, b: Sys, who: Who) {
    && b.root == a.root && b.active == a.active
    && (forall i :: i != who.id ==> Get(b.store.parents, i) == Get(a.store.parents, i))
    && (forall i :: i != who.id ==> Get(b.dirs, i) == Get(a.dirs, i))
    && (forall p :: p != who.path ==> Get(b.links, p) == Get(a.links, p))
  }

  // ---- opening: lock, read, remember ----

  function Opened(sys: Sys, who: Who, found: bool, parent: Parent): Task {
    Task(who.key, who.uid, who.path, Remembered(found), parent,
         PendingDeletion(who.id, Home(sys.root, who.id), who.path, who.uid, NO_LOCK, false, None))
  }

  /** The records once the intent is there; an attached model has none. */
  function WithIntent(sys: Sys, who: Who): Store
    requires who.key in sys.store.children
  {
    var child := sys.store.children[who.key];
    if child.parentKey.Some? then sys.store
    else sys.store.(children := sys.store.children[who.key := child.(pendingDownload := Some(IntentOf(sys, who)))])
  }

  /** What the record of a lost parent is taken to be: nothing but its place. */
  function SeenParent(sys: Sys, who: Who): Parent {
    if who.id in sys.store.parents then sys.store.parents[who.id] else Blank(sys.root, who.id)
  }

  /** The invariant's facts that a download relies on. */
  predicate Grounds(sys: Sys, id: Identity) {
    && sys.next != NO_LOCK
    && (id in sys.store.parents ==>
          var p := sys.store.parents[id];
          && p.localPath == Home(sys.root, id) && LockShape(p) && SavedShape(p) && p.lockId < sys.next
          && (p.status == Ready ==> DirOf(sys, id).marker != NoMarker))
  }

  predicate ChildGrounds(sys: Sys, who: Who) {
    who.key in sys.store.children ==>
      OneRole(sys.store.children[who.key]) && (Names(sys.store, who.id, who.key) ==> Lists(sys.store, who.id, who.key))
  }

  lemma SysInvGrounds(sys: Sys, who: Who)
    requires SysInv(sys)
    ensures Grounds(sys, who.id) && ChildGrounds(sys, who)
  {
    assert ViewOk(ViewOf(sys, who.id));
  }

  lemma RememberSucceeds(sys: Sys, who: Who, parent: Parent)
    requires ChildMayJoin(sys, who) && Grounds(sys, who.id) && ChildGrounds(sys, who)
    requires parent.localPath == Home(sys.root, who.id)
    ensures RememberDownload(sys.store, who.id, parent.localPath, who.key, who.uid, who.path, false) ==
              Done(WithIntent(sys, who), ())
  {
  }

  /** The parent is not being worked on, or its marker lets anyone finish it. */
  predicate IsOpen(sys: Sys, id: Identity) {
    id in sys.store.parents ==>
      !sys.store.parents[id].BlocksNewOperation() || MarkerMatches(sys, id, sys.store.parents[id].lockId)
  }

  function Intending(sys: Sys, who: Who): Sys
    requires who.key in sys.store.children
  {
    Written(sys, WithIntent(sys, who))
  }

  predicate MayOpen(sys: Sys, who: Who) {
    MayJoin(sys, who) && Grounds(sys, who.id) && ChildGrounds(sys, who) && IsOpen(sys, who.id)
  }

  lemma ReadsParent(sys: Sys, who: Who)
    requires MayOpen(sys, who)
    ensures var found := who.id in sys.store.parents;
            ReadParent(Begin(sys, who.id, who.key, who.uid, who.path, Blank(sys.root, who.id)), who.id) ==
              Goto(sys, who.id, Opened(sys, who, found, SeenParent(sys, who)).(pc := Read(found)))
  {
  }

  function Written(sys: Sys, t: Store): Sys {
    sys.(store := t, next := sys.next + 1)
  }

  /** A step that commits and goes on, seen without the task. */
  lemma CommitGoesOn(sys: Sys, id: Identity, a: Task, b: Task, op: Op, t: Store)
    requires ApplyOp(sys.store, op, sys.next) == t
    ensures Goto(Commit(Goto(sys, id, a), op), id, b) == Goto(Written(sys, t), id, b)
  {
  }

  lemma RecordsIntent(sys: Sys, who: Who)
    requires MayOpen(sys, who)
    ensures var found := who.id in sys.store.parents;
            var task := Opened(sys, who, found, SeenParent(sys, who));
            RememberIntent(Goto(sys, who.id, task.(pc := Read(found))), who.id, false) ==
              Goto(Intending(sys, who), who.id, task)
  {
    RememberSucceeds(sys, who, SeenParent(sys, who));
    var found := who.id in sys.store.parents;
    var task := Opened(sys, who, found, SeenParent(sys, who));
    CommitGoesOn(sys, who.id, task.(pc := Read(found)), task,
                 Remember(who.id, task.parent.localPath, who.key, who.uid, who.path, false), WithIntent(sys, who));
  }

  /** After opening, the task knows the parent and its intent is recorded. */
  lemma Opening(reach: iset<Sys>, sys: Sys, who: Who)
    requires Closed(reach, who) && sys in reach && MayOpen(sys, who)
    ensures Goto(Intending(sys, who), who.id,
                 Opened(sys, who, who.id in sys.store.parents, SeenParent(sys, who))) in reach
  {
    var id := who.id;
    var s1 := Begin(sys, id, who.key, who.uid, who.path, Blank(sys.root, id));
    DoBegin(reach, who, sys, Blank(sys.root, id));
    DoOpen(reach, who, s1);
    ReadsParent(sys, who);
    DoOpen(reach, who, ReadParent(s1, id));
    RecordsIntent(sys, who);
  }

  // ---- closing: link, reference, return ----

  /** The records with the reference on both sides. */
  function Attached(s: Store, who: Who): Store
    requires who.id in s.parents && who.key in s.children
  {
    var p, child := s.parents[who.id], s.children[who.key];
    Store(s.parents[who.id := p.(children := p.children[who.key := who.path])],
          s.children[who.key := child.(parentKey := Some(who.id), pendingDownload := None)])
  }

  predicate AtReady(b: Sys, who: Who) {
    && who.id in b.store.parents && b.store.parents[who.id].status == Ready
    && b.store.parents[who.id].localPath == Home(b.root, who.id) && MarkerExists(b, who.id) && MayJoin(b, who)
  }

  lemma AttachSucceeds(b: Sys, who: Who, parent: Parent)
    requires AtReady(b, who) && parent.localPath == Home(b.root, who.id)
    ensures AddModelReference(b.store, who.id, parent, who.key, who.uid, who.path, false) ==
              Done(Attached(b.store, who), ())
  {
  }

  /** The task of this model, with its directory's place. */
  predicate TaskOf(b: Sys, who: Who, task: Task) {
    task.key == who.key && task.uid == who.uid && task.path == who.path && task.parent.localPath == Home(b.root, who.id)
  }

  function Ended(b: Sys, who: Who): Sys
    requires who.id in b.store.parents && who.key in b.store.children
  {
    b.(store := Attached(b.store, who), next := b.next + 1, links := b.links[who.path := who.id])
  }

  function Linking(b: Sys, who: Who): Sys {
    b.(links := b.links[who.path := who.id])
  }

  lemma Links(b: Sys, who: Who, task: Task)
    requires task.pc == Attaching && TaskOf(b, who, task) && AtReady(b, who)
    ensures Link(Goto(b, who.id, task), who.id) ==
              Goto(Linking(b, who), who.id, task.(pc := Linked(who.path !in b.links)))
  {
  }

  lemma Refers(b: Sys, who: Who, task: Task)
    requires task.pc.Linked? && TaskOf(b, who, task) && AtReady(b, who)
    ensures Leave(Reference(Goto(Linking(b, who), who.id, task), who.id, false), who.id) == Ended(b, who)
  {
    AttachSucceeds(b, who, task.parent);
    assert b.active[who.id := task] - {who.id} == b.active;
  }

  lemma Closing(reach: iset<Sys>, b: Sys, who: Who, task: Task)
    requires Closed(reach, who) && Goto(b, who.id, task) in reach
    requires task.pc == Attaching && TaskOf(b, who, task) && AtReady(b, who)
    ensures Ended(b, who) in reach
  {
    var s, linked := Goto(b, who.id, task), task.(pc := Linked(who.path !in b.links));
    DoAttach(reach, who, s);
    Links(b, who, task);
    DoAttach(reach, who, Goto(Linking(b, who), who.id, linked));
    DoReturn(reach, who, Reference(Goto(Linking(b, who), who.id, linked), who.id, false));
    Refers(b, who, linked);
  }

  lemma EndedIsJoined(b: Sys, who: Who)
    requires AtReady(b, who)
    ensures Joined(Ended(b, who), who) && OnlyOwn(b, Ended(b, who), who)
  {
  }

  // ---- a Ready parent ----

  /** Over a Ready parent the model joins, and files and all other records stay as they are. */
  lemma JoinsReadyParent(sys: Sys, who: Who) returns (t: Sys)
    requires SysInv(sys) && MayJoin(sys, who)
    requires who.id in sys.store.parents && sys.store.parents[who.id].status == Ready
    ensures Leads(sys, t, who) && Joined(t, who) && OnlyOwn(sys, t, who) && t.dirs == sys.dirs
    ensures var p := sys.store.parents[who.id];
            t.store.parents[who.id] == p.(children := p.children[who.key := who.path])
  {
    SysInvGrounds(sys, who);
    ReachIsClosed(sys, who);
    t := ReusesReady(Reach(sys, who), sys, who);
  }

  lemma Reuses(sys: Sys, who: Who)
    requires MayOpen(sys, who) && who.id in sys.store.parents && sys.store.parents[who.id].status == Ready
    ensures var b, task := Intending(sys, who), Opened(sys, who, true, sys.store.parents[who.id]);
            && ReuseParent(Goto(b, who.id, task), who.id) == Goto(b, who.id, task.(pc := Attaching))
            && AtReady(b, who) && TaskOf(b, who, task)
  {
  }

  lemma ReusesReady(reach: iset<Sys>, sys: Sys, who: Who) returns (t: Sys)
    requires Closed(reach, who) && sys in reach && MayOpen(sys, who)
    requires who.id in sys.store.parents && sys.store.parents[who.id].status == Ready
    ensures t in reach && Joined(t, who) && OnlyOwn(sys, t, who) && t.dirs == sys.dirs
    ensures var p := sys.store.parents[who.id];
            t.store.parents[who.id] == p.(children := p.children[who.key := who.path])
  {
    var b, task := Intending(sys, who), Opened(sys, who, true, sys.store.parents[who.id]);
    Opening(reach, sys, who);
    DoReuse(reach, who, Goto(b, who.id, task));
    Reuses(sys, who);
    Closing(reach, b, who, task.(pc := Attaching));
    EndedIsJoined(b, who);
    t := Ended(b, who);
  }

  // ---- publishing what was fetched ----

  /** The task owns the record and has a complete copy. */
  predicate HasCopy(b: Sys, who: Who, task: Task) {
    && TaskOf(b, who, task) && MayJoin(b, who)
    && who.id in b.store.parents && b.store.parents[who.id] == task.parent
    && task.parent.status == Updating && task.parent.lockId != NO_LOCK
  }

  function Filled(b: Sys, who: Who, lock: LockId): Sys {
    b.(dirs := b.dirs[who.id := Dir(true, Wrote(lock), Whole)])
  }

  /** The record after MarkReady, with the statuses saved by a repair given back. */
  function Published(s: Store, id: Identity, p: Parent): Store {
    Store(s.parents[id := p.(status := Ready, lastCompleted := p.lockId, lockId := NO_LOCK, saved := map[])],
          WithStatuses(s.children, StatusesToRestore(s, id, p, p)))
  }

  lemma PublishSucceeds(s: Store, id: Identity, p: Parent)
    requires CanonicalPath(id, p.localPath) && id in s.parents && s.parents[id] == p
    requires p.status == Updating && p.lockId != NO_LOCK
    ensures SetStatus(s, id, p, Ready) == Done(Published(s, id, p), ())
  {
  }

  lemma Marks(b: Sys, who: Who, task: Task)
    requires task.pc == Fetched && DirOf(b, who.id).present && DirOf(b, who.id).files == Whole
    ensures WriteMarker(Goto(b, who.id, task), who.id, false) ==
              Goto(Filled(b, who, task.parent.lockId), who.id, task.(pc := Marked))
  {
  }

  lemma Publishes(b: Sys, who: Who, task: Task)
    requires task.pc == Marked && HasCopy(b, who, task)
    ensures PublishReady(Goto(b, who.id, task), who.id) ==
              Goto(Written(b, Published(b.store, who.id, task.parent)), who.id, task.(pc := Attaching))
  {
    PublishSucceeds(b.store, who.id, task.parent);
    CommitGoesOn(b, who.id, task, task.(pc := Attaching), Release(who.id, task.parent, Ready),
                 Published(b.store, who.id, task.parent));
  }

  function PublishedSys(b: Sys, who: Who, p: Parent): Sys {
    Written(Filled(b, who, p.lockId), Published(b.store, who.id, p))
  }

  lemma PublishedIsReady(b: Sys, who: Who, task: Task)
    requires HasCopy(b, who, task)
    ensures AtReady(PublishedSys(b, who, task.parent), who)
  {
  }

  lemma Publishing(reach: iset<Sys>, b: Sys, who: Who, task: Task)
    requires Closed(reach, who) && Goto(b, who.id, task) in reach
    requires task.pc == Fetched && HasCopy(b, who, task) && DirOf(b, who.id).present && DirOf(b, who.id).files == Whole
    ensures AtReady(PublishedSys(b, who, task.parent), who) && Ended(PublishedSys(b, who, task.parent), who) in reach
  {
    var b1 := Filled(b, who, task.parent.lockId);
    DoMark(reach, who, Goto(b, who.id, task));
    Marks(b, who, task);
    DoPublish(reach, who, Goto(b1, who.id, task.(pc := Marked)));
    Publishes(b1, who, task.(pc := Marked));
    PublishedIsReady(b, who, task);
    Closing(reach, PublishedSys(b, who, task.parent), who, task.(pc := Attaching));
  }

  // ---- a first download ----

  /** No record, or one without children whose files were never finished. */
  predicate IsUnused(sys: Sys, id: Identity) {
    && NoLinks(sys.links, id)
    && (id in sys.store.parents ==>
          var p := sys.store.parents[id];
          (p.status == Failed || p.Interrupted()) && p.children == map[] && !MarkerExists(sys, id))
  }

  function OwnedBy(p: Parent, lock: LockId): Parent {
    p.(status := Updating, lockId := lock, lastCompleted := NO_LOCK)
  }

  function Owning(b: Sys, who: Who, p: Parent): Sys {
    Written(b, b.store.(parents := b.store.parents[who.id := OwnedBy(p, b.next)])).(issued :=
          b.issued[b.next := ForWork])
  }

  lemma Checks(b: Sys, who: Who, task: Task)
    requires task.pc.Remembered? && IsUnused(b, who.id) && task.pc.found == (who.id in b.store.parents)
    requires task.pc.found ==> b.store.parents[who.id] == task.parent
    requires task.parent.children == map[]
    ensures CheckInitial(Goto(b, who.id, task), who.id) == Goto(b, who.id, task.(pc := Checked(task.pc.found)))
  {
  }

  lemma Acquires(b: Sys, who: Who, task: Task, repair: bool)
    requires (if repair then task.pc.Remembered? else task.pc.Checked?) && TaskOf(b, who, task)
    requires who.id in b.store.parents ==>
               && b.store.parents[who.id] == task.parent && !task.parent.BlocksNewOperation()
               && (task.parent.status == Ready ==> repair)
    ensures AcquireParent(Goto(b, who.id, task), who.id, repair) ==
              Goto(Owning(b, who, task.parent), who.id,
                   task.(parent := OwnedBy(task.parent, b.next), pc := PC.Owned(repair)))
  {
    var p := OwnedBy(task.parent, b.next);
    var t := b.store.(parents := b.store.parents[who.id := p]);
    assert TryAcquireLock(b.store, who.id, task.parent, repair, b.next) == Done(t, Acquisition(p, true));
    CommitGoesOn(b, who.id, task, task.(parent := p, pc := PC.Owned(repair)), Acquire(who.id, task.parent, repair), t);
  }

  lemma Clears(b: Sys, who: Who, task: Task)
    requires task.pc == PC.Owned(false) && task.parent.children == map[] && NoLinks(b.links, who.id)
    ensures Recheck(Goto(b, who.id, task), who.id) == Goto(b, who.id, task.(pc := Cleared))
  {
  }

  function Emptied(b: Sys, who: Who): Sys {
    b.(dirs := b.dirs[who.id := Dir(true, NoMarker, Unfinished)])
  }

  lemma Resets(b: Sys, who: Who, task: Task)
    requires task.pc == Cleared
    ensures Reset(Goto(b, who.id, task), who.id) == Goto(Emptied(b, who), who.id, task.(pc := Fetching))
  {
  }

  function WithCopy(b: Sys, who: Who): Sys {
    b.(dirs := b.dirs[who.id := Dir(true, NoMarker, Whole)])
  }

  lemma Fetches(b: Sys, who: Who, task: Task)
    requires task.pc == Fetching
    ensures FinishFetch(Goto(Emptied(b, who), who.id, task), who.id) ==
              Goto(WithCopy(b, who), who.id, task.(pc := Fetched))
  {
  }

  /** A complete copy under its marker, published by the lock that the task took. */
  predicate IsFilled(sys: Sys, t: Sys, id: Identity, lock: LockId) {
    t.dirs == sys.dirs[id := Dir(true, Wrote(lock), Whole)]
      && id in t.store.parents && t.store.parents[id].lastCompleted == lock && t.store.parents[id].lockId == NO_LOCK
  }

  lemma NothingToGiveBack(s: Store, id: Identity, p: Parent)
    requires p.children == map[]
    ensures Published(s, id, p).children == s.children
  {
    assert StatusesToRestore(s, id, p, p) == map[];
  }

  /** The state in which the task owns the record it found or creates. */
  function Taken(sys: Sys, who: Who): Sys
    requires who.key in sys.store.children
  {
    Owning(Intending(sys, who), who, SeenParent(sys, who))
  }

  function Owner(sys: Sys, who: Who, repair: bool): Task {
    Opened(sys, who, who.id in sys.store.parents, OwnedBy(SeenParent(sys, who), sys.next + 1)).(pc := PC.Owned(repair))
  }

  lemma UnusedIsChecked(sys: Sys, who: Who)
    requires MayOpen(sys, who) && IsUnused(sys, who.id)
    ensures var found := who.id in sys.store.parents;
            var b, task := Intending(sys, who), Opened(sys, who, found, SeenParent(sys, who));
            && CheckInitial(Goto(b, who.id, task), who.id) == Goto(b, who.id, task.(pc := Checked(found)))
            && AcquireParent(Goto(b, who.id, task.(pc := Checked(found))), who.id, false) ==
                 Goto(Taken(sys, who), who.id, Owner(sys, who, false))
  {
    var found := who.id in sys.store.parents;
    var b, task := Intending(sys, who), Opened(sys, who, found, SeenParent(sys, who));
    Checks(b, who, task);
    Acquires(b, who, task.(pc := Checked(found)), false);
  }

  lemma TakesUnused(reach: iset<Sys>, sys: Sys, who: Who)
    requires Closed(reach, who) && sys in reach && MayOpen(sys, who) && IsUnused(sys, who.id)
    ensures Goto(Taken(sys, who), who.id, Owner(sys, who, false)) in reach
  {
    var found := who.id in sys.store.parents;
    var b, task := Intending(sys, who), Opened(sys, who, found, SeenParent(sys, who));
    Opening(reach, sys, who);
    DoAcquire(reach, who, Goto(b, who.id, task), false);
    UnusedIsChecked(sys, who);
    DoAcquire(reach, who, Goto(b, who.id, task.(pc := Checked(found))), false);
  }

  /** The owner has what publishing asks for, once the copy is there. */
  lemma TakenMayPublish(sys: Sys, who: Who, repair: bool)
    requires MayOpen(sys, who)
    ensures HasCopy(Taken(sys, who), who, Owner(sys, who, repair))
  {
  }

  /** The record that a task publishes, from the one it found. */
  function ReadyAgain(p: Parent, lock: LockId): Parent {
    p.(status := Ready, lastCompleted := lock, lockId := NO_LOCK, saved := map[])
  }

  lemma TakenPublished(sys: Sys, who: Who)
    requires who.key in sys.store.children
    ensures var p, s := SeenParent(sys, who), Taken(sys, who).store;
            && s.children == WithIntent(sys, who).children
            && Published(s, who.id, OwnedBy(p, sys.next + 1)).parents ==
                 sys.store.parents[who.id := ReadyAgain(p, sys.next + 1)]
  {
  }

  lemma FirstPublished(sys: Sys, who: Who)
    requires who.key in sys.store.children && SeenParent(sys, who).children == map[]
    ensures var r := PublishedSys(WithCopy(Taken(sys, who), who), who, OwnedBy(SeenParent(sys, who), sys.next + 1));
            && r.store.children == WithIntent(sys, who).children
            && r.store.parents == sys.store.parents[who.id := ReadyAgain(SeenParent(sys, who), sys.next + 1)]
            && r.dirs == sys.dirs[who.id := Dir(true, Wrote(sys.next + 1), Whole)]
            && r.links == sys.links && r.active == sys.active && r.root == sys.root
  {
    TakenPublished(sys, who);
    NothingToGiveBack(Taken(sys, who).store, who.id, OwnedBy(SeenParent(sys, who), sys.next + 1));
  }

  lemma PublishedOwn(sys: Sys, who: Who, r: Sys, p: Parent)
    requires who.key in sys.store.children && r.store.children == WithIntent(sys, who).children
    requires r.store.parents == sys.store.parents[who.id := p]
    requires r.dirs == sys.dirs[who.id := Dir(true, Wrote(sys.next + 1), Whole)]
    requires r.links == sys.links && r.active == sys.active && r.root == sys.root
    ensures OnlyOwn(sys, r, who)
  {
  }

  lemma FirstEnds(sys: Sys, who: Who, r: Sys)
    requires MayOpen(sys, who) && IsUnused(sys, who.id) && AtReady(r, who)
    requires r == PublishedSys(WithCopy(Taken(sys, who), who), who, OwnedBy(SeenParent(sys, who), sys.next + 1))
    ensures var t := Ended(r, who);
            && Joined(t, who) && OnlyOwn(sys, t, who) && IsFilled(sys, t, who.id, sys.next + 1)
            && t.store.parents[who.id].children == map[who.key := who.path]
  {
    FirstPublished(sys, who);
    EndedIsJoined(r, who);
    PublishedOwn(sys, who, r, ReadyAgain(SeenParent(sys, who), sys.next + 1));
    OwnOnly(sys, r, Ended(r, who), who);
  }

  lemma OwnOnly(a: Sys, b: Sys, c: Sys, who: Who)
    requires OnlyOwn(a, b, who) && OnlyOwn(b, c, who)
    ensures OnlyOwn(a, c, who)
  {
  }

  lemma FillsAndPublishes(reach: iset<Sys>, b: Sys, who: Who, task: Task)
    requires Closed(reach, who) && Goto(b, who.id, task) in reach && HasCopy(b, who, task)
    requires task.pc == PC.Owned(false) && task.parent.children == map[] && NoLinks(b.links, who.id)
    ensures var r := PublishedSys(WithCopy(b, who), who, task.parent); AtReady(r, who) && Ended(r, who) in reach
  {
    Filling(reach, b, who, task);
    CopiedMayPublish(b, who, task);
    Publishing(reach, WithCopy(b, who), who, task.(pc := Fetched));
  }

  lemma UnusedMayFill(sys: Sys, who: Who)
    requires MayOpen(sys, who) && IsUnused(sys, who.id)
    ensures var b, task := Taken(sys, who), Owner(sys, who, false);
            && HasCopy(b, who, task) && task.pc == PC.Owned(false) && task.parent.children == map[]
            && NoLinks(b.links, who.id) && task.parent == OwnedBy(SeenParent(sys, who), sys.next + 1)
  {
    TakenMayPublish(sys, who, false);
  }

  lemma DownloadsFirst(reach: iset<Sys>, sys: Sys, who: Who)
    requires Closed(reach, who) && sys in reach && MayOpen(sys, who) && IsUnused(sys, who.id)
    ensures var r := PublishedSys(WithCopy(Taken(sys, who), who), who, OwnedBy(SeenParent(sys, who), sys.next + 1));
            AtReady(r, who) && Ended(r, who) in reach
  {
    TakesUnused(reach, sys, who);
    UnusedMayFill(sys, who);
    FillsAndPublishes(reach, Taken(sys, who), who, Owner(sys, who, false));
  }

  lemma CopiedMayPublish(b: Sys, who: Who, task: Task)
    requires HasCopy(b, who, task)
    ensures var c := WithCopy(b, who);
            HasCopy(c, who, task.(pc := Fetched)) && DirOf(c, who.id).present && DirOf(c, who.id).files == Whole
  {
  }

  lemma Filling(reach: iset<Sys>, b: Sys, who: Who, task: Task)
    requires Closed(reach, who) && Goto(b, who.id, task) in reach
    requires task.pc == PC.Owned(false) && task.parent.children == map[] && NoLinks(b.links, who.id)
    ensures Goto(WithCopy(b, who), who.id, task.(pc := Fetched)) in reach
  {
    DoReset(reach, who, Goto(b, who.id, task));
    Clears(b, who, task);
    DoReset(reach, who, Goto(b, who.id, task.(pc := Cleared)));
    Resets(b, who, task.(pc := Cleared));
    DoFetch(reach, who, Goto(Emptied(b, who), who.id, task.(pc := Fetching)));
    Fetches(b, who, task.(pc := Fetching));
  }

  /**
   Where no record is left, or one without children and finished files, and no link: the model joins a
   Ready parent over a complete copy that its own task downloaded.
   */
  lemma JoinsAfterDownload(sys: Sys, who: Who) returns (t: Sys)
    requires SysInv(sys) && MayJoin(sys, who) && IsUnused(sys, who.id)
    ensures Leads(sys, t, who) && Joined(t, who) && OnlyOwn(sys, t, who) && IsFilled(sys, t, who.id, sys.next + 1)
    ensures t.store.parents[who.id].children == map[who.key := who.path]
  {
    SysInvGrounds(sys, who);
    ReachIsClosed(sys, who);
    DownloadsFirst(Reach(sys, who), sys, who);
    var r := PublishedSys(WithCopy(Taken(sys, who), who), who, OwnedBy(SeenParent(sys, who), sys.next + 1));
    FirstEnds(sys, who, r);
    t := Ended(r, who);
  }

  // ---- a repair ----

  /** Every link into the directory belongs to a recorded child. */
  predicate LinksRecorded(links: map<Path, Identity>, id: Identity, p: Parent) {
    forall path :: path in links && links[path] == id ==> path in p.children.Values
  }

  function FailedStore(s: Store, id: Identity, p: Parent): Store {
    Store(s.parents[id := FailedParent(s, id, p)],
          map key | key in s.children ::
            if FailsForRepair(s, key, id, p, p) then s.children[key].(status := ModelFailed) else s.children[key])
  }

  function FailedParent(s: Store, id: Identity, p: Parent): Parent {
    p.(saved := SavedForRepair(s, id, p, p))
  }

  lemma FailSucceeds(s: Store, id: Identity, p: Parent)
    requires CanonicalPath(id, p.localPath) && id in s.parents && s.parents[id] == p
    requires p.status == Updating && p.lockId != NO_LOCK
    ensures MarkChildrenFailed(s, id, p) == Done(FailedStore(s, id, p), FailedParent(s, id, p))
  {
  }

  /** Every model shows what it showed, or what an interrupted repair had saved for it; nothing else changes. */
  ghost predicate StatusesGivenBack(s: Store, t: Store, id: Identity) {
    && t.children.Keys == s.children.Keys
    && forall k :: k in s.children ==>
         t.children[k] == if Names(s, id, k) then s.children[k].(status := Effective(s, k)) else s.children[k]
  }

  /** What a repair relies on: whoever names the parent is listed there under a path. */
  ghost predicate RepairGrounds(s: Store, id: Identity) {
    id in s.parents && SavedShape(s.parents[id].(status := Updating)) && forall k :: Names(s, id, k) ==> Lists(s, id, k)
  }

  lemma PublishingGivesBack(s: Store, id: Identity, p: Parent)
    requires RepairGrounds(s, id) && s.parents[id] == p
    ensures StatusesGivenBack(s, Published(s, id, p), id)
  {
    var t := Published(s, id, p);
    forall k | k in s.children
      ensures t.children[k] == if Names(s, id, k) then s.children[k].(status := Effective(s, k)) else s.children[k]
    {
      assert Names(s, id, k) ==> Lists(s, id, k);
    }
  }

  lemma FailingKeepsEffective(s: Store, id: Identity, p: Parent)
    requires RepairGrounds(s, id) && s.parents[id] == p
    ensures var f := FailedStore(s, id, p);
            && RepairGrounds(f, id) && f.children.Keys == s.children.Keys
            && (forall k :: Names(f, id, k) <==> Names(s, id, k))
            && forall k :: k in s.children ==>
                 && f.children[k] == s.children[k].(status := f.children[k].status)
                 && if Names(s, id, k) then Effective(f, k) == Effective(s, k) else f.children[k] == s.children[k]
  {
    var f := FailedStore(s, id, p);
    forall k | k in s.children
      ensures f.children[k] == s.children[k].(status := f.children[k].status)
      ensures if Names(s, id, k) then Effective(f, k) == Effective(s, k) else f.children[k] == s.children[k]
    {
      assert Names(s, id, k) ==> Lists(s, id, k);
    }
  }

  lemma RepairGivesBack(s: Store, id: Identity, p: Parent)
    requires RepairGrounds(s, id) && s.parents[id] == p
    ensures StatusesGivenBack(s, Published(FailedStore(s, id, p), id, FailedParent(s, id, p)), id)
  {
    FailingKeepsEffective(s, id, p);
    PublishingGivesBack(FailedStore(s, id, p), id, FailedParent(s, id, p));
  }

  /** Nobody owns the parent, and whoever names it is listed. */
  ghost predicate MayRepair(sys: Sys, who: Who) {
    && MayOpen(sys, who) && (forall k :: Names(sys.store, who.id, k) ==> Lists(sys.store, who.id, k))
    && (who.id in sys.store.parents ==> !sys.store.parents[who.id].BlocksNewOperation())
  }

  lemma RepairAcquires(sys: Sys, who: Who)
    requires MayRepair(sys, who)
    ensures var task := Opened(sys, who, who.id in sys.store.parents, SeenParent(sys, who));
            AcquireParent(Goto(Intending(sys, who), who.id, task), who.id, true) ==
              Goto(Taken(sys, who), who.id, Owner(sys, who, true))
  {
    Acquires(Intending(sys, who), who, Opened(sys, who, who.id in sys.store.parents, SeenParent(sys, who)), true);
  }

  lemma TakesForRepair(reach: iset<Sys>, sys: Sys, who: Who)
    requires Closed(reach, who) && sys in reach && MayRepair(sys, who)
    ensures Goto(Taken(sys, who), who.id, Owner(sys, who, true)) in reach
  {
    var task := Opened(sys, who, who.id in sys.store.parents, SeenParent(sys, who));
    Opening(reach, sys, who);
    DoAcquire(reach, who, Goto(Intending(sys, who), who.id, task), true);
    RepairAcquires(sys, who);
  }

  function Failing(b: Sys, who: Who, p: Parent): Sys {
    Written(b, FailedStore(b.store, who.id, p))
  }

  lemma Refuses(b: Sys, who: Who, task: Task)
    requires task.pc == PC.Owned(true)
    ensures Validate(Goto(b, who.id, task), who.id, false) == Goto(b, who.id, task.(pc := Corrupt))
    ensures DirOf(b, who.id).present && DirOf(b, who.id).files == Whole ==>
              Validate(Goto(b, who.id, task), who.id, true) == Goto(b, who.id, task.(pc := Fetched))
  {
  }

  lemma Fails(b: Sys, who: Who, task: Task)
    requires task.pc == Corrupt && HasCopy(b, who, task)
    ensures FailAttached(Goto(b, who.id, task), who.id) ==
              Goto(Failing(b, who, task.parent), who.id,
                   task.(parent := FailedParent(b.store, who.id, task.parent), pc := ChildrenFailed))
  {
    FailSucceeds(b.store, who.id, task.parent);
    CommitGoesOn(b, who.id, task, task.(parent := FailedParent(b.store, who.id, task.parent), pc := ChildrenFailed),
                 FailChildren(who.id, task.parent), FailedStore(b.store, who.id, task.parent));
  }

  lemma FailedMayPublish(b: Sys, who: Who, task: Task)
    requires HasCopy(b, who, task)
    ensures HasCopy(Failing(b, who, task.parent), who, task.(parent := FailedParent(b.store, who.id, task.parent)))
  {
  }

  lemma Counts(b: Sys, who: Who, task: Task)
    requires task.pc == ChildrenFailed && LinksRecorded(b.links, who.id, task.parent)
    ensures CheckUnrecorded(Goto(b, who.id, task), who.id) == Goto(b, who.id, task.(pc := Replaceable))
  {
  }

  function Unmarking(b: Sys, who: Who): Sys {
    b.(dirs := b.dirs[who.id := DirOf(b, who.id).(marker := NoMarker)])
  }

  lemma Unmarks(b: Sys, who: Who, task: Task)
    requires task.pc == Replaceable
    ensures RemoveMarker(Goto(b, who.id, task), who.id) == Goto(Unmarking(b, who), who.id, task.(pc := Unmarked))
  {
  }

  lemma Replaces(b: Sys, who: Who, task: Task)
    requires task.pc == Unmarked
    ensures Replace(Goto(Unmarking(b, who), who.id, task), who.id) ==
              Goto(Emptied(b, who), who.id, task.(pc := Fetching))
  {
    PutTwice(b.dirs, who.id, DirOf(b, who.id).(marker := NoMarker), Dir(true, NoMarker, Unfinished));
  }

  lemma Replacing(reach: iset<Sys>, b: Sys, who: Who, task: Task)
    requires Closed(reach, who) && Goto(b, who.id, task) in reach && task.pc == ChildrenFailed
    requires LinksRecorded(b.links, who.id, task.parent)
    ensures Goto(WithCopy(b, who), who.id, task.(pc := Fetched)) in reach
  {
    DoFail(reach, who, Goto(b, who.id, task));
    Counts(b, who, task);
    DoReplace(reach, who, Goto(b, who.id, task.(pc := Replaceable)));
    Unmarks(b, who, task.(pc := Replaceable));
    Replaces(b, who, task.(pc := Unmarked));
    DoReplace(reach, who, Goto(Unmarking(b, who), who.id, task.(pc := Unmarked)));
    DoFetch(reach, who, Goto(Emptied(b, who), who.id, task.(pc := Fetching)));
    Fetches(b, who, task.(pc := Fetching));
  }

  lemma RepairsAndPublishes(reach: iset<Sys>, b: Sys, who: Who, task: Task)
    requires Closed(reach, who) && Goto(b, who.id, task) in reach && HasCopy(b, who, task)
    requires task.pc == PC.Owned(true) && LinksRecorded(b.links, who.id, task.parent)
    ensures var r := PublishedSys(WithCopy(Failing(b, who, task.parent), who), who,
                                  FailedParent(b.store, who.id, task.parent));
            AtReady(r, who) && Ended(r, who) in reach
  {
    var p := FailedParent(b.store, who.id, task.parent);
    var failed := task.(parent := p, pc := ChildrenFailed);
    DoValidate(reach, who, Goto(b, who.id, task), false);
    Refuses(b, who, task);
    DoFail(reach, who, Goto(b, who.id, task.(pc := Corrupt)));
    Fails(b, who, task.(pc := Corrupt));
    Replacing(reach, Failing(b, who, task.parent), who, failed);
    FailedMayPublish(b, who, task);
    CopiedMayPublish(Failing(b, who, task.parent), who, failed);
    Publishing(reach, WithCopy(Failing(b, who, task.parent), who), who, failed.(pc := Fetched));
  }

  lemma KeepsAndPublishes(reach: iset<Sys>, b: Sys, who: Who, task: Task)
    requires Closed(reach, who) && Goto(b, who.id, task) in reach && HasCopy(b, who, task)
    requires task.pc == PC.Owned(true) && DirOf(b, who.id).present && DirOf(b, who.id).files == Whole
    ensures var r := PublishedSys(b, who, task.parent); AtReady(r, who) && Ended(r, who) in reach
  {
    DoValidate(reach, who, Goto(b, who.id, task), true);
    Refuses(b, who, task);
    Publishing(reach, b, who, task.(pc := Fetched));
  }

  // ---- what a repair leaves ----

  /** Other models show what they showed, or what an interrupted repair had saved for them. */
  ghost predicate OthersShow(a: Sys, b: Sys, who: Who) {
    forall k :: k != who.key ==>
      Get(b.store.children, k) ==
        if k in a.store.children && Names(a.store, who.id, k)
        then Some(a.store.children[k].(status := Effective(a.store, k))) else Get(a.store.children, k)
  }

  lemma TakenGrounds(sys: Sys, who: Who)
    requires MayRepair(sys, who)
    ensures var s := Taken(sys, who).store;
            && RepairGrounds(s, who.id) && s.parents[who.id] == Owner(sys, who, true).parent
            && (forall k :: k != who.key ==> Get(s.children, k) == Get(sys.store.children, k))
            && (forall k :: Names(s, who.id, k) <==> Names(sys.store, who.id, k))
            && forall k :: k != who.key && Names(sys.store, who.id, k) ==> Effective(s, k) == Effective(sys.store, k)
  {
    var s := Taken(sys, who).store;
    forall k ensures Names(s, who.id, k) <==> Names(sys.store, who.id, k) { }
    forall k | Names(s, who.id, k) ensures Lists(s, who.id, k) { assert Lists(sys.store, who.id, k); }
  }

  lemma GivenBackShows(sys: Sys, who: Who, t: Store)
    requires MayRepair(sys, who) && StatusesGivenBack(Taken(sys, who).store, t, who.id)
    ensures forall k :: k != who.key ==>
              Get(t.children, k) ==
                if k in sys.store.children && Names(sys.store, who.id, k)
                then Some(sys.store.children[k].(status := Effective(sys.store, k))) else Get(sys.store.children, k)
  {
    TakenGrounds(sys, who);
    var s := Taken(sys, who).store;
    forall k | k != who.key
      ensures Get(t.children, k) ==
                if k in sys.store.children && Names(sys.store, who.id, k)
                then Some(sys.store.children[k].(status := Effective(sys.store, k))) else Get(sys.store.children, k)
    {
      assert Get(s.children, k) == Get(sys.store.children, k);
    }
  }

  /** The state in which a repair has published its copy, replaced or found valid. */
  function Repaired(sys: Sys, who: Who, valid: bool): Sys
    requires who.key in sys.store.children
  {
    var b, p := Taken(sys, who), Owner(sys, who, true).parent;
    if valid then PublishedSys(b, who, p)
    else PublishedSys(WithCopy(Failing(b, who, p), who), who, FailedParent(b.store, who.id, p))
  }

  lemma RepairedStore(sys: Sys, who: Who, valid: bool)
    requires MayRepair(sys, who)
    ensures StatusesGivenBack(Taken(sys, who).store, Repaired(sys, who, valid).store, who.id)
  {
    TakenGrounds(sys, who);
    var s, p := Taken(sys, who).store, Owner(sys, who, true).parent;
    if valid { PublishingGivesBack(s, who.id, p); } else { RepairGivesBack(s, who.id, p); }
  }

  lemma PutTwice<K, V>(m: map<K, V>, k: K, a: V, b: V)
    ensures m[k := a][k := b] == m[k := b]
  {
  }

  lemma RepairedParents(sys: Sys, who: Who, valid: bool)
    requires who.key in sys.store.children
    ensures Repaired(sys, who, valid).store.parents ==
              sys.store.parents[who.id := ReadyAgain(SeenParent(sys, who), sys.next + 1)]
  {
    var m, p, ready := sys.store.parents, Owner(sys, who, true).parent, ReadyAgain(SeenParent(sys, who), sys.next + 1);
    PutTwice(m, who.id, p, ready);
    PutTwice(m, who.id, p, FailedParent(Taken(sys, who).store, who.id, p));
    PutTwice(m, who.id, FailedParent(Taken(sys, who).store, who.id, p), ready);
  }

  predicate SamePlaces(a: Sys, b: Sys) {
    b.links == a.links && b.active == a.active && b.root == a.root
  }

  lemma PublishedFiles(b: Sys, who: Who, p: Parent)
    ensures var r := PublishedSys(b, who, p);
            SamePlaces(b, r) && r.dirs == b.dirs[who.id := Dir(true, Wrote(p.lockId), Whole)]
  {
  }

  lemma TakenFiles(sys: Sys, who: Who)
    requires who.key in sys.store.children
    ensures SamePlaces(sys, Taken(sys, who)) && Taken(sys, who).dirs == sys.dirs
  {
  }

  lemma RepairedFiles(sys: Sys, who: Who, valid: bool)
    requires who.key in sys.store.children
    ensures var r := Repaired(sys, who, valid);
            SamePlaces(sys, r) && r.dirs == sys.dirs[who.id := Dir(true, Wrote(sys.next + 1), Whole)]
  {
    var b, p := Taken(sys, who), Owner(sys, who, true).parent;
    TakenFiles(sys, who);
    if valid {
      PublishedFiles(b, who, p);
    } else {
      PublishedFiles(WithCopy(Failing(b, who, p), who), who, FailedParent(b.store, who.id, p));
      PutTwice(sys.dirs, who.id, Dir(true, NoMarker, Whole), Dir(true, Wrote(sys.next + 1), Whole));
    }
  }

  /** The new record, files and other models, seen after the attachment. */
  lemma EndsAs(sys: Sys, who: Who, r: Sys, p: Parent, lock: LockId)
    requires AtReady(r, who) && r.store.parents == sys.store.parents[who.id := p]
    requires r.dirs == sys.dirs[who.id := Dir(true, Wrote(lock), Whole)] && p.lastCompleted == lock
    requires p.lockId == NO_LOCK
    requires SamePlaces(sys, r) && OthersShow(sys, r, who)
    ensures var t := Ended(r, who);
            && Joined(t, who) && OthersUntouched(sys, t, who) && OthersShow(sys, t, who)
               && IsFilled(sys, t, who.id, lock)
            && t.store.parents[who.id].children == p.children[who.key := who.path]
  {
    EndedIsJoined(r, who);
  }

  lemma RepairEnds(sys: Sys, who: Who, valid: bool)
    requires MayRepair(sys, who) && AtReady(Repaired(sys, who, valid), who)
    ensures var t := Ended(Repaired(sys, who, valid), who);
            && Joined(t, who) && OthersUntouched(sys, t, who) && OthersShow(sys, t, who)
            && IsFilled(sys, t, who.id, sys.next + 1)
            && t.store.parents[who.id].children == SeenParent(sys, who).children[who.key := who.path]
  {
    var r := Repaired(sys, who, valid);
    RepairedParents(sys, who, valid);
    RepairedFiles(sys, who, valid);
    RepairedStore(sys, who, valid);
    GivenBackShows(sys, who, r.store);
    EndsAs(sys, who, r, ReadyAgain(SeenParent(sys, who), sys.next + 1), sys.next + 1);
  }

  lemma Repairs(reach: iset<Sys>, sys: Sys, who: Who, valid: bool)
    requires Closed(reach, who) && sys in reach && MayRepair(sys, who)
    requires if valid then DirOf(sys, who.id).present && DirOf(sys, who.id).files == Whole
             else LinksRecorded(sys.links, who.id, SeenParent(sys, who))
    ensures AtReady(Repaired(sys, who, valid), who) && Ended(Repaired(sys, who, valid), who) in reach
  {
    TakesForRepair(reach, sys, who);
    TakenMayPublish(sys, who, true);
    if valid {
      KeepsAndPublishes(reach, Taken(sys, who), who, Owner(sys, who, true));
    } else {
      RepairsAndPublishes(reach, Taken(sys, who), who, Owner(sys, who, true));
    }
  }

  lemma SysInvMayRepair(sys: Sys, who: Who)
    requires SysInv(sys) && MayJoin(sys, who)
    requires who.id in sys.store.parents ==> !sys.store.parents[who.id].BlocksNewOperation()
    ensures MayRepair(sys, who)
  {
    SysInvGrounds(sys, who);
  }

  /**
   Whatever the record of a parent that nobody owns, the model joins through a repair: of files that turn out
   valid, or of replaced ones if every link belongs to a recorded child. The other children end up with the
   status they had, through any number of interrupted repairs before.
   */
  lemma JoinsAfterRepair(sys: Sys, who: Who, valid: bool) returns (t: Sys)
    requires SysInv(sys) && MayJoin(sys, who)
    requires who.id in sys.store.parents ==> !sys.store.parents[who.id].BlocksNewOperation()
    requires if valid then DirOf(sys, who.id).present && DirOf(sys, who.id).files == Whole
             else LinksRecorded(sys.links, who.id, SeenParent(sys, who))
    ensures Leads(sys, t, who) && Joined(t, who) && OthersUntouched(sys, t, who) && OthersShow(sys, t, who)
    ensures IsFilled(sys, t, who.id, sys.next + 1)
    ensures t.store.parents[who.id].children == SeenParent(sys, who).children[who.key := who.path]
  {
    SysInvMayRepair(sys, who);
    ReachIsClosed(sys, who);
    Repairs(Reach(sys, who), sys, who, valid);
    RepairEnds(sys, who, valid);
    t := Ended(Repaired(sys, who, valid), who);
  }

  // ---- a parent whose owner stopped ----

  /** Somebody stopped while owning the record; the marker tells whether the copy was finished. */
  predicate IsOwned(sys: Sys, id: Identity) {
    id in sys.store.parents && sys.store.parents[id].lockId != NO_LOCK
  }

  /** The record of a recovered owner: unfinished, and anybody's. */
  function Interrupted(s: Store, id: Identity): Store
    requires id in s.parents
  {
    var p := s.parents[id];
    s.(parents := s.parents[id := p.(status := Updating, lastCompleted := p.lockId, lockId := NO_LOCK)])
  }

  lemma CommitEnds(sys: Sys, id: Identity, task: Task, op: Op, t: Store)
    requires ApplyOp(sys.store, op, sys.next) == t && id !in sys.active
    ensures Leave(Commit(Goto(sys, id, task), op), id) == Written(sys, t)
  {
    assert sys.active[id := task] - {id} == sys.active;
  }

  function Beginner(sys: Sys, who: Who): Task {
    Opened(sys, who, false, Blank(sys.root, who.id)).(pc := Start)
  }

  lemma Begins(sys: Sys, who: Who)
    requires who.id !in sys.active
    ensures Begin(sys, who.id, who.key, who.uid, who.path, Blank(sys.root, who.id)) ==
              Goto(sys, who.id, Beginner(sys, who))
  {
  }

  lemma InterruptSucceeds(s: Store, id: Identity)
    requires id in s.parents && CanonicalPath(id, s.parents[id].localPath) && LockShape(s.parents[id])
    requires s.parents[id].lockId != NO_LOCK
    ensures SetStatus(s, id, s.parents[id], Updating) == Done(Interrupted(s, id), ())
  {
  }

  lemma RecoversOwner(sys: Sys, who: Who)
    requires who.id !in sys.active && Grounds(sys, who.id) && IsOwned(sys, who.id)
    requires !MarkerMatches(sys, who.id, sys.store.parents[who.id].lockId)
    requires !OwnedByReceipt(sys.store, sys.store.parents[who.id].lockId)
    ensures var p := sys.store.parents[who.id];
            Leave(RecoverInterrupted(Goto(sys, who.id, Beginner(sys, who)), who.id, p), who.id) ==
              Written(sys, Interrupted(sys.store, who.id))
  {
    InterruptSucceeds(sys.store, who.id);
    CommitEnds(sys, who.id, Beginner(sys, who), Release(who.id, sys.store.parents[who.id], Updating),
               Interrupted(sys.store, who.id));
  }

  lemma Recovering(reach: iset<Sys>, sys: Sys, who: Who)
    requires Closed(reach, who) && sys in reach
    requires who.id !in sys.active && Grounds(sys, who.id) && IsOwned(sys, who.id)
    requires !MarkerMatches(sys, who.id, sys.store.parents[who.id].lockId)
    requires !OwnedByReceipt(sys.store, sys.store.parents[who.id].lockId)
    ensures Written(sys, Interrupted(sys.store, who.id)) in reach
  {
    var p, s := sys.store.parents[who.id], Goto(sys, who.id, Beginner(sys, who));
    DoBegin(reach, who, sys, Blank(sys.root, who.id));
    Begins(sys, who);
    DoRecover(reach, who, s, p);
    DoReturn(reach, who, RecoverInterrupted(s, who.id, p));
    RecoversOwner(sys, who);
  }

  lemma FinishesOwner(sys: Sys, who: Who)
    requires who.id !in sys.active && Grounds(sys, who.id) && IsOwned(sys, who.id)
    requires MarkerMatches(sys, who.id, sys.store.parents[who.id].lockId)
    ensures Leave(FinishFromMarker(Goto(sys, who.id, Beginner(sys, who)), who.id), who.id) ==
              Written(sys, Published(sys.store, who.id, sys.store.parents[who.id]))
  {
    var p := sys.store.parents[who.id];
    PublishSucceeds(sys.store, who.id, p);
    CommitEnds(sys, who.id, Beginner(sys, who), Release(who.id, p, Ready), Published(sys.store, who.id, p));
  }

  lemma Finishing(reach: iset<Sys>, sys: Sys, who: Who)
    requires Closed(reach, who) && sys in reach
    requires who.id !in sys.active && Grounds(sys, who.id) && IsOwned(sys, who.id)
    requires MarkerMatches(sys, who.id, sys.store.parents[who.id].lockId)
    ensures Written(sys, Published(sys.store, who.id, sys.store.parents[who.id])) in reach
  {
    var s := Goto(sys, who.id, Beginner(sys, who));
    DoBegin(reach, who, sys, Blank(sys.root, who.id));
    Begins(sys, who);
    DoFinish(reach, who, s);
    DoReturn(reach, who, FinishFromMarker(s, who.id));
    FinishesOwner(sys, who);
  }

  /** The handler's own way to finish it: reuse what the marker vouches for. */
  lemma ReusesMarked(sys: Sys, who: Who)
    requires MayOpen(sys, who) && IsOwned(sys, who.id) && MarkerMatches(sys, who.id, sys.store.parents[who.id].lockId)
    ensures var b, p := Intending(sys, who), sys.store.parents[who.id];
            var task := Opened(sys, who, true, p);
            ReuseParent(Goto(b, who.id, task), who.id) ==
              Goto(Written(b, Published(b.store, who.id, p)), who.id, task.(pc := Attaching))
  {
    var b, p := Intending(sys, who), sys.store.parents[who.id];
    var task := Opened(sys, who, true, p);
    PublishSucceeds(b.store, who.id, p);
    CommitGoesOn(b, who.id, task, task.(pc := Attaching), Release(who.id, p, Ready), Published(b.store, who.id, p));
  }

  lemma ReusedIsReady(sys: Sys, who: Who)
    requires MayOpen(sys, who) && IsOwned(sys, who.id) && MarkerMatches(sys, who.id, sys.store.parents[who.id].lockId)
    ensures var b, p := Intending(sys, who), sys.store.parents[who.id];
            var r := Written(b, Published(b.store, who.id, p));
            AtReady(r, who) && TaskOf(r, who, Opened(sys, who, true, p))
              && r.store.parents[who.id].children == p.children
  {
  }

  lemma JoinsMarked(reach: iset<Sys>, sys: Sys, who: Who)
    requires Closed(reach, who) && sys in reach && MayOpen(sys, who)
    requires IsOwned(sys, who.id) && MarkerMatches(sys, who.id, sys.store.parents[who.id].lockId)
    ensures var r := Written(Intending(sys, who), Published(WithIntent(sys, who), who.id, sys.store.parents[who.id]));
            AtReady(r, who) && Ended(r, who) in reach
  {
    var b, task := Intending(sys, who), Opened(sys, who, true, sys.store.parents[who.id]);
    Opening(reach, sys, who);
    DoReuse(reach, who, Goto(b, who.id, task));
    ReusesMarked(sys, who);
    ReusedIsReady(sys, who);
    Closing(reach, Written(b, Published(b.store, who.id, sys.store.parents[who.id])), who, task.(pc := Attaching));
  }

  /**
   A task that finds a stopped owner ends the ownership: Ready if the marker vouches for the copy, unfinished if
   not, unless a deletion receipt owns the parent. Files stay, and every child shows its own status again.
   */
  lemma StoppedOwnerIsRecovered(sys: Sys, who: Who) returns (t: Sys)
    requires SysInv(sys) && who.id !in sys.active && IsOwned(sys, who.id)
    requires var lock := sys.store.parents[who.id].lockId;
             MarkerMatches(sys, who.id, lock) || !OwnedByReceipt(sys.store, lock)
    ensures Leads(sys, t, who) && t.dirs == sys.dirs && SamePlaces(sys, t) && who.id in t.store.parents
    ensures var p, q := sys.store.parents[who.id], t.store.parents[who.id];
            && q.lockId == NO_LOCK && q.lastCompleted == p.lockId && q.children == p.children
            && q.status == if MarkerMatches(sys, who.id, p.lockId) then Ready else Updating
    ensures MarkerMatches(sys, who.id, sys.store.parents[who.id].lockId) ==>
              StatusesGivenBack(sys.store, t.store, who.id)
  {
    SysInvGrounds(sys, who);
    ReachIsClosed(sys, who);
    var p := sys.store.parents[who.id];
    if MarkerMatches(sys, who.id, p.lockId) {
      Finishing(Reach(sys, who), sys, who);
      PublishingGivesBack(sys.store, who.id, p);
      t := Written(sys, Published(sys.store, who.id, p));
    } else {
      Recovering(Reach(sys, who), sys, who);
      t := Written(sys, Interrupted(sys.store, who.id));
    }
  }

  // ---- releases whose outcome is unknown ----

  lemma DoRetry(reach: iset<Sys>, who: Who, s: Sys, pending: Pending)
    requires Closed(reach, who) && s in reach && pending.id == who.id
    ensures RetryRelease(s, who.id, pending) in reach
  {
    assert Act(s, ARetryRelease(who.id, pending)) in reach;
  }

  lemma Retries(sys: Sys, who: Who, pending: Pending)
    requires who.id !in sys.active && Grounds(sys, who.id) && pending in sys.releases && pending.id == who.id
    ensures var t := Leave(RetryRelease(Goto(sys, who.id, Beginner(sys, who)), who.id, pending), who.id);
            && t.releases == sys.releases - {pending} && !HoldsLock(t.store, who.id, pending.lock)
            && t.dirs == sys.dirs && SamePlaces(sys, t)
  {
    assert sys.active[who.id := Beginner(sys, who)] - {who.id} == sys.active;
  }

  /** The next task ends what a lost release left behind, whether or not it had been committed. */
  lemma LostReleaseIsRetried(sys: Sys, who: Who, pending: Pending) returns (t: Sys)
    requires SysInv(sys) && who.id !in sys.active && pending in sys.releases && pending.id == who.id
    ensures Leads(sys, t, who) && t.releases == sys.releases - {pending} && !HoldsLock(t.store, who.id, pending.lock)
    ensures t.dirs == sys.dirs && SamePlaces(sys, t)
  {
    SysInvGrounds(sys, who);
    ReachIsClosed(sys, who);
    var reach, s := Reach(sys, who), Goto(sys, who.id, Beginner(sys, who));
    DoBegin(reach, who, sys, Blank(sys.root, who.id));
    Begins(sys, who);
    DoRetry(reach, who, s, pending);
    DoReturn(reach, who, RetryRelease(s, who.id, pending));
    Retries(sys, who, pending);
    t := Leave(RetryRelease(s, who.id, pending), who.id);
  }

  /** A task that gives up, and hears that it did, leaves the record to others with its children. */
  lemma GivingUpFrees(sys: Sys, id: Identity, interrupted: bool)
    requires SysInv(sys) && id in sys.active && HoldsWorkLock(sys.active[id].pc)
    ensures var t := GiveUp(sys, id, interrupted, true, true);
            && id !in t.active && t.releases == sys.releases && t.dirs == sys.dirs && id in t.store.parents
            && t.store.parents[id].lockId == NO_LOCK
               && t.store.parents[id].lastCompleted == sys.active[id].parent.lockId
            && t.store.parents[id].children == sys.active[id].parent.children
            && t.store.parents[id].status == if interrupted then Updating else Failed
  {
    assert ViewOk(ViewOf(sys, id));
  }

  // ---- from every state ----

  /**
   The directory can serve: its parent is Ready or was finished under its marker; or no deletion receipt owns the
   parent, and its files are complete or every link into it belongs to a recorded child.
   */
  predicate CanServe(sys: Sys, id: Identity) {
    var p := if id in sys.store.parents then sys.store.parents[id] else Blank(sys.root, id);
    || p.status == Ready || MarkerMatches(sys, id, p.lockId)
    || ((p.lockId != NO_LOCK ==> !OwnedByReceipt(sys.store, p.lockId))
        && (LinksRecorded(sys.links, id, p) || (DirOf(sys, id).present && DirOf(sys, id).files == Whole)))
  }

  lemma OnlyOwnShows(a: Sys, b: Sys, who: Who)
    requires OnlyOwn(a, b, who) && who.id in a.store.parents && a.store.parents[who.id].saved == map[]
    ensures OthersShow(a, b, who)
  {
  }

  lemma MarkedStore(sys: Sys, who: Who)
    requires MayOpen(sys, who) && IsOwned(sys, who.id)
    requires forall k :: Names(sys.store, who.id, k) ==> Lists(sys.store, who.id, k)
    ensures var s := WithIntent(sys, who);
            && StatusesGivenBack(s, Published(s, who.id, sys.store.parents[who.id]), who.id)
            && (forall k :: k != who.key ==> Get(s.children, k) == Get(sys.store.children, k))
            && (forall k :: Names(s, who.id, k) <==> Names(sys.store, who.id, k))
            && forall k :: k != who.key && Names(sys.store, who.id, k) ==> Effective(s, k) == Effective(sys.store, k)
  {
    var s := WithIntent(sys, who);
    forall k ensures Names(s, who.id, k) <==> Names(sys.store, who.id, k) { }
    forall k | Names(s, who.id, k) ensures Lists(s, who.id, k) { assert Lists(sys.store, who.id, k); }
    PublishingGivesBack(s, who.id, sys.store.parents[who.id]);
  }

  lemma MarkedEnds(sys: Sys, who: Who, r: Sys)
    requires MayOpen(sys, who) && IsOwned(sys, who.id) && AtReady(r, who)
    requires forall k :: Names(sys.store, who.id, k) ==> Lists(sys.store, who.id, k)
    requires r == Written(Intending(sys, who), Published(WithIntent(sys, who), who.id, sys.store.parents[who.id]))
    ensures Joined(Ended(r, who), who) && OthersUntouched(sys, Ended(r, who), who)
    ensures OthersShow(sys, Ended(r, who), who)
  {
    MarkedStore(sys, who);
    EndedIsJoined(r, who);
    var s := WithIntent(sys, who);
    forall k | k != who.key
      ensures Get(r.store.children, k) ==
                if k in sys.store.children && Names(sys.store, who.id, k)
                then Some(sys.store.children[k].(status := Effective(sys.store, k))) else Get(sys.store.children, k)
    {
      assert Get(s.children, k) == Get(sys.store.children, k);
    }
  }

  lemma RecoveredMayRepair(sys: Sys, who: Who)
    requires MayJoin(sys, who) && Grounds(sys, who.id) && ChildGrounds(sys, who) && IsOwned(sys, who.id)
    requires forall k :: Names(sys.store, who.id, k) ==> Lists(sys.store, who.id, k)
    ensures MayRepair(Written(sys, Interrupted(sys.store, who.id)), who)
  {
    var s := Interrupted(sys.store, who.id);
    forall k | Names(s, who.id, k) ensures Lists(s, who.id, k) { assert Lists(sys.store, who.id, k); }
  }

  lemma RecoveredShows(sys: Sys, who: Who, t: Sys)
    requires IsOwned(sys, who.id)
    requires var b := Written(sys, Interrupted(sys.store, who.id)); OthersUntouched(b, t, who) && OthersShow(b, t, who)
    ensures OthersUntouched(sys, t, who) && OthersShow(sys, t, who)
  {
    var b := Written(sys, Interrupted(sys.store, who.id));
    forall k | k in sys.store.children && Names(sys.store, who.id, k)
      ensures Names(b.store, who.id, k) && Effective(b.store, k) == Effective(sys.store, k) { }
  }

  lemma JoinsRecovered(reach: iset<Sys>, sys: Sys, who: Who, valid: bool) returns (t: Sys)
    requires Closed(reach, who) && sys in reach && MayJoin(sys, who) && Grounds(sys, who.id) && ChildGrounds(sys, who)
    requires forall k :: Names(sys.store, who.id, k) ==> Lists(sys.store, who.id, k)
    requires IsOwned(sys, who.id) && !MarkerMatches(sys, who.id, sys.store.parents[who.id].lockId)
    requires !OwnedByReceipt(sys.store, sys.store.parents[who.id].lockId)
    requires if valid then DirOf(sys, who.id).present && DirOf(sys, who.id).files == Whole
             else LinksRecorded(sys.links, who.id, sys.store.parents[who.id])
    ensures t in reach && Joined(t, who) && OthersUntouched(sys, t, who) && OthersShow(sys, t, who)
  {
    var b := Written(sys, Interrupted(sys.store, who.id));
    Recovering(reach, sys, who);
    RecoveredMayRepair(sys, who);
    Repairs(reach, b, who, valid);
    RepairEnds(b, who, valid);
    t := Ended(Repaired(b, who, valid), who);
    RecoveredShows(sys, who, t);
  }

  /**
   From every state of every history: if the model's record and path allow it and the directory can serve, some
   steps of its own task alone end with the model attached on both sides, linked, under a Ready parent. No
   other directory, link or record changes, and every other child shows its own status.
   */
  lemma LeftAloneItJoins(sys: Sys, who: Who) returns (t: Sys)
    requires SysInv(sys) && MayJoin(sys, who) && CanServe(sys, who.id)
    ensures Leads(sys, t, who) && Joined(t, who) && OthersUntouched(sys, t, who) && OthersShow(sys, t, who)
  {
    SysInvGrounds(sys, who);
    ReachIsClosed(sys, who);
    var reach, id, p := Reach(sys, who), who.id, SeenParent(sys, who);
    var valid := DirOf(sys, id).present && DirOf(sys, id).files == Whole;
    if id in sys.store.parents && p.status == Ready {
      t := JoinsReadyParent(sys, who);
      OnlyOwnShows(sys, t, who);
    } else if MarkerMatches(sys, id, p.lockId) {
      JoinsMarked(reach, sys, who);
      var r := Written(Intending(sys, who), Published(WithIntent(sys, who), id, p));
      MarkedEnds(sys, who, r);
      t := Ended(r, who);
    } else if IsOwned(sys, id) {
      t := JoinsRecovered(reach, sys, who, valid);
    } else {
      t := JoinsAfterRepair(sys, who, valid);
    }
  }
}
