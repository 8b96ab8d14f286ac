/**
 Two deletions side by side (HfSiblings), the last write of each let loose: the task gives up the parent's
 file lock before it removes the model's record, so the other deletion may work in between.
 */
module HfLateRemoval {
  import opened HfTypes
  import opened HfRepository
  import opened HfRuns
  import opened HfProtocol
  import opened HfDeletion
  import opened HfSiblings
  import opened Maps

  /** A turn under the file lock, or the removal of the record by a task whose turn cleaned up. */
  datatype Act = Works(second: bool, moves: seq<Move>) | Removes(second: bool)

  /** `doneA`, `doneB`: this model's task has cleaned up and only its record is left to remove. */
  datatype Joint = Joint(disk: Disk, doneA: bool, doneB: bool)

  function PointReached(e: Pair, d: Disk, moves: seq<Move>): Point {
    PlayAll(EnvOf(e, d), Machine(View(d), Begin), moves).point
  }

  function Removed(e: Pair, d: Disk): Disk {
    Back(d, Write(View(d), Remove(e.a.key, e.a.uid)))
  }

  function FirstAct(e: Pair, r: Joint, act: Act): Joint {
    match act
    case Works(_, moves) =>
      Joint(FirstTurn(e, r.disk, moves), PointReached(e, r.disk, moves).Cleaned?, r.doneB)
    case Removes(_) => if r.doneA then Joint(Removed(e, r.disk), false, r.doneB) else r
  }

  function SwappedRun(r: Joint): Joint {
    Joint(Other(r.disk), r.doneB, r.doneA)
  }

  function TakeAct(e: Pair, r: Joint, act: Act): Joint {
    if act.second then SwappedRun(FirstAct(Swapped(e), SwappedRun(r), act)) else FirstAct(e, r, act)
  }

  function {:tailrecursion false} TakeActs(e: Pair, r: Joint, acts: seq<Act>): Joint {
    if acts == [] then r else TakeAct(e, TakeActs(e, r, acts[..|acts| - 1]), acts[|acts| - 1])
  }

  /** Both tasks are about to begin, on whatever was left by earlier ones. */
  function Started(d: Disk): Joint {
    Joint(d, false, false)
  }

  // ---- a record that the other deletion does not look at ----

  function DropFrom(s: Store, key: ModelKey): Store {
    s.(children := s.children - {key})
  }

  function DropState(s: Persistent, key: ModelKey): Persistent {
    s.(store := DropFrom(s.store, key))
  }

  function DropMachine(m: Machine, key: ModelKey): Machine {
    m.(disk := DropState(m.disk, key))
  }

  function DropOutcome<T>(o: Outcome<T>, key: ModelKey): Outcome<T> {
    if o.Done? then Done(DropFrom(o.store, key), o.result) else Rejected
  }

  function Drop(d: Disk, key: ModelKey): Disk {
    d.(store := DropFrom(d.store, key))
  }

  /** Unlisted, without reference and intent, and its receipt names no lock that is held or will be given out. */
  predicate Quiet(id: Identity, key: ModelKey, s: Persistent) {
    && (id in s.store.parents ==> key !in s.store.parents[id].children)
    && (key in s.store.children ==>
          var child := s.store.children[key];
          && child.parentKey.None? && child.pendingDownload.None?
          && (child.pendingDeletion.Some? ==>
                child.pendingDeletion.value.parentLock < s.next
                  && !HoldsLock(s.store, id, child.pendingDeletion.value.parentLock)))
  }

  lemma PutAndDrop<V>(m: map<ModelKey, V>, k: ModelKey, v: V, key: ModelKey)
    requires k != key
    ensures m[k := v] - {key} == (m - {key})[k := v]
  {
  }

  lemma DropTwice<V>(m: map<ModelKey, V>, k: ModelKey, key: ModelKey)
    ensures m - {k} - {key} == m - {key} - {k}
  {
  }

  lemma WrittenDrops(children: map<ModelKey, Child>, statuses: map<ModelKey, ModelStatus>, key: ModelKey)
    ensures WithStatuses(children - {key}, statuses) == WithStatuses(children, statuses) - {key}
  {
  }

  lemma ReleaseIgnores(s: Store, id: Identity, expected: Parent, status: ParentStatus, key: ModelKey)
    requires id in s.parents ==> key !in s.parents[id].children
    ensures SetStatus(DropFrom(s, key), id, expected, status) == DropOutcome(SetStatus(s, id, expected, status), key)
    ensures var t := StoreOf(SetStatus(s, id, expected, status), s);
            && Get(t.children, key) == Get(s.children, key)
            && (id in t.parents ==>
                  id in s.parents && t.parents[id].children == s.parents[id].children
                    && t.parents[id].lockId in {s.parents[id].lockId, NO_LOCK})
  {
    if id in s.parents {
      var t := DropFrom(s, key);
      assert t.children - {key} == s.children - {key};
      SameStatuses(s, t, id, s.parents[id], expected, key);
      WrittenDrops(s.children, StatusesToRestore(s, id, s.parents[id], expected), key);
    }
  }

  lemma DetachIgnores(s: Store, env: Env, expected: Parent, lock: LockId, key: ModelKey)
    requires key != env.key
    ensures RemoveModelReference(DropFrom(s, key), env.id, expected, env.key, env.uid, env.path, true, false, lock) ==
              DropOutcome(RemoveModelReference(s, env.id, expected, env.key, env.uid, env.path, true, false, lock), key)
  {
    var o := RemoveModelReference(s, env.id, expected, env.key, env.uid, env.path, true, false, lock);
    if o.Done? && o.store.children != s.children {
      PutAndDrop(s.children, env.key, o.store.children[env.key], key);
    }
  }

  lemma OwnIgnores(s: Store, k: ModelKey, receipt: PendingDeletion, absent: bool, lock: LockId, key: ModelKey)
    requires key != k
    ensures DeletionParent(DropFrom(s, key), k, receipt, absent, false, lock) ==
              DropOutcome(DeletionParent(s, k, receipt, absent, false, lock), key)
  {
    var o := DeletionParent(s, k, receipt, absent, false, lock);
    if o.Done? && o.store.children != s.children { PutAndDrop(s.children, k, o.store.children[k], key); }
  }

  lemma ClaimIgnores(s: Store, env: Env, receipt: PendingDeletion, absent: bool, key: ModelKey)
    requires key != env.key
    ensures ClaimPendingDeletion(DropFrom(s, key), env.key, env.uid, receipt, absent, env.current) ==
              DropOutcome(ClaimPendingDeletion(s, env.key, env.uid, receipt, absent, env.current), key)
  {
    var o := ClaimPendingDeletion(s, env.key, env.uid, receipt, absent, env.current);
    if o.Done? { PutAndDrop(s.children, env.key, o.store.children[env.key], key); }
  }

  lemma ConvertIgnores(s: Store, env: Env, intent: PendingDownload, key: ModelKey)
    requires key != env.key
    ensures BeginPendingDownloadDeletion(DropFrom(s, key), env.key, env.uid, intent, false, env.current) ==
              DropOutcome(BeginPendingDownloadDeletion(s, env.key, env.uid, intent, false, env.current), key)
  {
    var o := BeginPendingDownloadDeletion(s, env.key, env.uid, intent, false, env.current);
    if o.Done? && o.store != s { PutAndDrop(s.children, env.key, o.store.children[env.key], key); }
  }

  lemma RemoveIgnores(s: Store, env: Env, key: ModelKey)
    requires key != env.key
    ensures RemoveModel(DropFrom(s, key), env.key, env.uid) == DropOutcome(RemoveModel(s, env.key, env.uid), key)
  {
    DropTwice(s.children, env.key, key);
  }

  lemma IntentsIgnore(env: Env, s: Persistent, key: ModelKey)
    requires key != env.key && Quiet(env.id, key, s)
    ensures Keeps(env, DropState(s, key)) == Keeps(env, s)
  {
    var t := DropState(s, key);
    forall k ensures (k in s.store.children && NamesDirectory(s.store.children[k], env.id, env.home)) <==>
                     (k in t.store.children && NamesDirectory(t.store.children[k], env.id, env.home)) { }
  }

  lemma AbandonedIgnores(env: Env, s: Persistent, key: ModelKey)
    requires key != env.key && Quiet(env.id, key, s)
    ensures Abandoned(env, DropState(s, key)) == Abandoned(env, s)
  {
    var t := DropState(s, key);
    if env.id in s.store.parents && s.store.parents[env.id].lockId != NO_LOCK {
      var lock := s.store.parents[env.id].lockId;
      if OwnedByReceipt(s.store, lock) {
        var k :| k in s.store.children && s.store.children[k].pendingDeletion.Some?
          && s.store.children[k].pendingDeletion.value.parentLock == lock;
        assert k != key && k in t.store.children && t.store.children[k] == s.store.children[k];
      }
    }
  }

  // ---- every move of the other deletion ----

  /** The move is the same without the record, and leaves it as quiet as it was. */
  predicate Ignores(env: Env, m: Machine, move: Move, key: ModelKey) {
    var n := Play(env, m, move);
    && Play(env, DropMachine(m, key), move) == DropMachine(n, key)
    && Quiet(env.id, key, n.disk) && Get(n.disk.store.children, key) == Get(m.disk.store.children, key)
  }

  /** A write that leaves the record and may free the parent's lock or take a new one. */
  predicate Passes(id: Identity, key: ModelKey, s: Persistent, t: Persistent) {
    && Get(t.store.children, key) == Get(s.store.children, key) && s.next <= t.next
    && (id in t.store.parents ==>
          && id in s.store.parents && t.store.parents[id].children.Keys <= s.store.parents[id].children.Keys
          && t.store.parents[id].lockId in {s.store.parents[id].lockId, NO_LOCK, s.next})
  }

  lemma PassesQuietly(id: Identity, key: ModelKey, s: Persistent, t: Persistent)
    requires Quiet(id, key, s) && Passes(id, key, s, t)
    ensures Quiet(id, key, t)
  {
  }

  lemma ConvertedIgnores(env: Env, s: Persistent, key: ModelKey)
    requires key != env.key && HasIntent(env, s)
    ensures Converted(env, DropState(s, key)) == DropState(Converted(env, s), key)
    ensures Passes(env.id, key, s, Converted(env, s))
  {
    ConvertIgnores(s.store, env, s.store.children[env.key].pendingDownload.value, key);
  }

  lemma RecoveredIgnores(env: Env, s: Persistent, key: ModelKey)
    requires key != env.key && Quiet(env.id, key, s) && Abandoned(env, s)
    ensures Abandoned(env, DropState(s, key)) && Recovered(env, DropState(s, key)) == DropState(Recovered(env, s), key)
    ensures Passes(env.id, key, s, Recovered(env, s))
  {
    AbandonedIgnores(env, s, key);
    var p := s.store.parents[env.id];
    ReleaseIgnores(s.store, env.id, p, if s.marker == Wrote(p.lockId) then Ready else Updating, key);
  }

  lemma DetachPasses(env: Env, s: Persistent, p: Parent, key: ModelKey)
    requires key != env.key
    ensures Passes(env.id, key, s, Write(s, RemoveReference(env.id, p, env.key, env.uid, env.path, true, false)))
  {
  }

  lemma WriteIgnores(env: Env, s: Persistent, p: Parent, key: ModelKey)
    requires key != env.key
    ensures var op := RemoveReference(env.id, p, env.key, env.uid, env.path, true, false);
            Write(DropState(s, key), op) == DropState(Write(s, op), key)
  {
    DetachIgnores(s.store, env, p, s.next, key);
  }

  lemma DetachedIgnores(env: Env, s: Persistent, key: ModelKey)
    requires key != env.key && Quiet(env.id, key, s) && !HasIntent(env, s) && !Abandoned(env, s)
    ensures BeginStep(env, DropState(s, key)) == DropMachine(BeginStep(env, s), key)
    ensures Passes(env.id, key, s, BeginStep(env, s).disk)
  {
    AbandonedIgnores(env, s, key);
    if env.id in s.store.parents {
      DetachIgnores(s.store, env, s.store.parents[env.id], s.next, key);
      WriteIgnores(env, s, s.store.parents[env.id], key);
      DetachPasses(env, s, s.store.parents[env.id], key);
    }
  }

  lemma BeginIgnores(env: Env, s: Persistent, key: ModelKey)
    requires key != env.key && Quiet(env.id, key, s)
    ensures BeginStep(env, DropState(s, key)) == DropMachine(BeginStep(env, s), key)
    ensures Passes(env.id, key, s, BeginStep(env, s).disk)
  {
    if HasIntent(env, s) {
      ConvertedIgnores(env, s, key);
    } else if Abandoned(env, s) {
      RecoveredIgnores(env, s, key);
    } else {
      DetachedIgnores(env, s, key);
    }
  }

  lemma OwnStepIgnores(env: Env, s: Persistent, receipt: PendingDeletion, key: ModelKey)
    requires key != env.key
    ensures OwnStep(env, DropState(s, key), receipt) == DropMachine(OwnStep(env, s, receipt), key)
    ensures Passes(env.id, key, s, OwnStep(env, s, receipt).disk)
  {
    OwnIgnores(s.store, env.key, receipt, !s.present, s.next, key);
  }

  lemma ClaimStepIgnores(env: Env, s: Persistent, receipt: PendingDeletion, key: ModelKey)
    requires key != env.key
    ensures ClaimStep(env, DropState(s, key), receipt) == DropMachine(ClaimStep(env, s, receipt), key)
    ensures Passes(env.id, key, s, ClaimStep(env, s, receipt).disk)
  {
    ClaimIgnores(s.store, env, receipt, !s.present, key);
  }

  lemma ReleasedIgnores(env: Env, s: Persistent, p: Parent, before: ParentStatus, key: ModelKey)
    requires key != env.key && Quiet(env.id, key, s)
    ensures Released(env, DropState(s, key), p, before) == DropState(Released(env, s, p, before), key)
    ensures Quiet(env.id, key, Released(env, s, p, before))
    ensures Get(Released(env, s, p, before).store.children, key) == Get(s.store.children, key)
  {
    ReleaseIgnores(s.store, env.id, p, ReleaseTarget(before, s.marker != NoMarker), key);
  }

  lemma CleanIgnores(env: Env, s: Persistent, receipt: PendingDeletion, lookup: Lookup, key: ModelKey)
    requires key != env.key && Quiet(env.id, key, s)
    ensures var m := CleanStep(env, s, receipt, lookup);
            && CleanStep(env, DropState(s, key), receipt, lookup) == DropMachine(m, key)
            && Quiet(env.id, key, m.disk) && Get(m.disk.store.children, key) == Get(s.store.children, key)
  {
    IntentsIgnore(env, s, key);
    if lookup.Found? { ReleasedIgnores(env, s, lookup.parent, receipt.StatusBeforeDeletion(), key); }
  }

  lemma DeleteIgnores(env: Env, s: Persistent, p: Parent, key: ModelKey)
    requires Quiet(env.id, key, s)
    ensures var t := Write(s, DeleteParent(env.id, p));
            && Write(DropState(s, key), DeleteParent(env.id, p)) == DropState(t, key)
            && Quiet(env.id, key, t) && t.store.children == s.store.children
  {
  }

  lemma FinishIgnores(env: Env, s: Persistent, key: ModelKey)
    requires key != env.key && Quiet(env.id, key, s)
    ensures var t := Write(s, Remove(env.key, env.uid));
            && Write(DropState(s, key), Remove(env.key, env.uid)) == DropState(t, key)
            && Quiet(env.id, key, t) && Get(t.store.children, key) == Get(s.store.children, key)
  {
    RemoveIgnores(s.store, env, key);
  }

  lemma MoveIgnores(env: Env, m: Machine, move: Move, key: ModelKey)
    requires key != env.key && Quiet(env.id, key, m.disk)
    ensures Ignores(env, m, move, key)
  {
    match move
    case Crash =>
    case CrashRemoving(_) => IntentsIgnore(env, m.disk, key);
    case Go =>
      match m.point
      case Begin =>
        BeginIgnores(env, m.disk, key);
        PassesQuietly(env.id, key, m.disk, Advance(env, m).disk);
      case Resuming(receipt) =>
        OwnStepIgnores(env, m.disk, receipt, key);
        ClaimStepIgnores(env, m.disk, receipt, key);
        PassesQuietly(env.id, key, m.disk, Advance(env, m).disk);
      case Owning(receipt, lookup) => CleanIgnores(env, m.disk, receipt, lookup, key);
      case ChildUnlinked(receipt, lookup) => CleanIgnores(env, m.disk, receipt, lookup, key);
      case Emptied(_, parent) => DeleteIgnores(env, m.disk, parent, key);
      case Giving(parent, before) => ReleasedIgnores(env, m.disk, parent, before, key);
      case Cleaned => FinishIgnores(env, m.disk, key);
      case Finished =>
  }

  lemma {:induction false} MovesIgnore(env: Env, m: Machine, moves: seq<Move>, key: ModelKey)
    requires key != env.key && Quiet(env.id, key, m.disk)
    ensures var n := PlayAll(env, m, moves);
            && PlayAll(env, DropMachine(m, key), moves) == DropMachine(n, key)
            && Quiet(env.id, key, n.disk) && Get(n.disk.store.children, key) == Get(m.disk.store.children, key)
  {
    if moves != [] {
      MovesIgnore(env, m, moves[..|moves| - 1], key);
      MoveIgnores(env, PlayAll(env, m, moves[..|moves| - 1]), moves[|moves| - 1], key);
    }
  }

  /** The first deletion's turn is the same whether or not the second model's quiet record is still there. */
  lemma TurnIgnores(e: Pair, d: Disk, moves: seq<Move>)
    requires e.a.key != e.b.key && Quiet(e.id, e.b.key, View(d))
    ensures var d' := FirstTurn(e, d, moves);
            && FirstTurn(e, Drop(d, e.b.key), moves) == Drop(d', e.b.key)
            && PointReached(e, Drop(d, e.b.key), moves) == PointReached(e, d, moves)
            && Quiet(e.id, e.b.key, View(d')) && Get(d'.store.children, e.b.key) == Get(d.store.children, e.b.key)
  {
    MovesIgnore(EnvOf(e, d), Machine(View(d), Begin), moves, e.b.key);
  }

  // ---- the goal without the record ----

  /** Only the removal of the first model's record is left, and it does not move the goal. */
  ghost predicate Late(e: Pair, d: Disk) {
    && Quiet(e.id, e.a.key, View(d))
    && (HasReceipt(d.store, e.a.key) ==> d.store.children[e.a.key].pendingDeletion.value.uid == e.a.uid)
    && JointEnd(e, Drop(d, e.a.key)) == JointEnd(e, d)
  }

  lemma DropKeepsInv(s: Store, next: LockId, key: ModelKey)
    requires Inv(World(s, next)) && (key in s.children ==> s.children[key].parentKey.None?)
    ensures Inv(World(DropFrom(s, key), next))
  {
    var t := DropFrom(s, key);
    forall i, k ensures Lists(t, i, k) == Lists(s, i, k) && Names(t, i, k) == Names(s, i, k) { }
  }

  lemma DropSound(e: Pair, d: Disk)
    requires Sound2(e, d) && Quiet(e.id, e.a.key, View(d))
    ensures Sound2(e, Drop(d, e.a.key)) && !OrderMatters(e, Drop(d, e.a.key))
  {
    DropKeepsInv(d.store, d.next, e.a.key);
    var t := Drop(d, e.a.key);
    assert MemberOk(Swapped(e), Other(t)) by {
      assert e.b.key in t.store.children ==> t.store.children[e.b.key] == d.store.children[e.b.key];
    }
    forall k | HasReceipt(t.store, k) ensures HasReceipt(d.store, k) && t.store.children[k] == d.store.children[k] { }
  }

  lemma NumberIsNoEnd(e: Pair, d: Disk, n: LockId)
    ensures SettledEnd(e, d.(next := n)) == SettledEnd(e, d)
  {
  }

  lemma NumberIsNoGoal(e: Pair, d: Disk, n: LockId)
    ensures JointEnd(e, d.(next := n)) == JointEnd(e, d)
  {
    var t := Settle(e, d.(next := n));
    assert t == Settle(e, d).(next := t.next);
    NumberIsNoEnd(e, Settle(e, d), t.next);
  }

  lemma NumberIsSound(e: Pair, d: Disk)
    requires Sound2(e, d)
    ensures Sound2(e, d.(next := d.next + 1)) && OrderMatters(e, d.(next := d.next + 1)) == OrderMatters(e, d)
  {
    var t := d.(next := d.next + 1);
    assert MemberOk(e, t) && MemberOk(Swapped(e), Other(t));
    forall k | HasReceipt(t.store, k) ensures HasReceipt(d.store, k) { }
  }

  /** A model without shared record. */
  lemma IdleIsLate(e: Pair, d: Disk)
    requires Sound2(e, d) && !Shared(d.store, e.id, e.a.key)
    ensures Late(e, d)
  {
    var t := Drop(d, e.a.key).(next := d.next + 1);
    assert OnlyMine(e, d, t);
    IdleSettled(e, d, t);
    NumberIsNoGoal(e, Drop(d, e.a.key), d.next + 1);
    IdleIsQuiet(e, d);
  }

  lemma IdleIsQuiet(e: Pair, d: Disk)
    requires Sound2(e, d) && !Shared(d.store, e.id, e.a.key)
    ensures Quiet(e.id, e.a.key, View(d))
  {
    SoundFacts(e, d);
    assert !Lists(d.store, e.id, e.a.key) by { assert !Names(d.store, e.id, e.a.key); }
  }

  /** A deletion that has cleaned up. */
  lemma CleanedIsLate(e: Pair, d: Disk)
    requires Active(e, d) && !OrderMatters(e, d) && PointOk(EnvOf(e, d), View(d), Cleaned)
    ensures Late(e, d)
  {
    var t := Drop(d, e.a.key);
    CleanedIsQuiet(e, d);
    Factor(e, d);
    DropSound(e, d);
    FactorGone(e, t);
    assert t.store.children - {e.a.key} == d.store.children - {e.a.key};
    assert Summary(EnvOf(e, t), View(t)) == Summary(EnvOf(e, d), View(d));
  }

  lemma CleanedIsQuiet(e: Pair, d: Disk)
    requires Active(e, d) && PointOk(EnvOf(e, d), View(d), Cleaned)
    ensures Quiet(e.id, e.a.key, View(d)) && HasReceipt(d.store, e.a.key)
    ensures e.id in d.store.parents ==> d.store.parents[e.id].lockId == NO_LOCK
  {
    SoundFacts(e, d);
    TargetUnlocked(e, d);
    assert !Lists(d.store, e.id, e.a.key) by { assert !Names(d.store, e.id, e.a.key); }
  }

  lemma TurnEndsLate(e: Pair, d: Disk, moves: seq<Move>)
    requires Sound2(e, d) && !OrderMatters(e, d) && PointReached(e, d, moves).Cleaned?
    ensures Late(e, FirstTurn(e, d, moves))
  {
    var d' := FirstTurn(e, d, moves);
    FirstTurnKeeps(e, d, moves);
    if Passive(e, d) {
      PassiveTurn(e, d, moves);
      IdleIsLate(e, d');
    } else {
      LocalOf(e, d);
      PlayAllKeeps(EnvOf(e, d), Machine(View(d), Begin), moves);
      TurnKeepsTarget(e, d, moves);
      if Shared(d'.store, e.id, e.a.key) { CleanedIsLate(e, d'); } else { IdleIsLate(e, d'); }
    }
  }

  lemma SwapDrop(e: Pair, d: Disk)
    requires Sound2(e, d) && Quiet(e.id, e.b.key, View(d))
    ensures Sound2(e, Drop(d, e.b.key)) && !OrderMatters(e, Drop(d, e.b.key))
    ensures JointEnd(Swapped(e), Drop(Other(d), e.b.key)) == Mirrored(JointEnd(e, Drop(d, e.b.key)))
    ensures JointEnd(Swapped(e), Other(d)) == Mirrored(JointEnd(e, d))
  {
    SwapKeepsSound(e, d);
    DropSound(Swapped(e), Other(d));
    var t := Drop(d, e.b.key);
    assert Other(t) == Drop(Other(d), e.b.key) && Swapped(Swapped(e)) == e && Other(Other(t)) == t;
    SwapKeepsSound(Swapped(e), Other(t));
    SwapNeeded(e, t);
    SwapJoint(e, t);
    SwapJoint(e, d);
  }

  lemma MirroredBack(x: Ending, y: Ending)
    ensures Mirrored(x) == Mirrored(y) <==> x == y
  {
    assert Mirrored(Mirrored(x)) == x && Mirrored(Mirrored(y)) == y;
  }

  lemma LateMeans(e: Pair, d: Disk)
    requires Sound2(e, d) && Quiet(e.id, e.b.key, View(d))
    ensures JointEnd(Swapped(e), Drop(Other(d), e.b.key)) == JointEnd(Swapped(e), Other(d)) <==>
              JointEnd(e, Drop(d, e.b.key)) == JointEnd(e, d)
  {
    SwapDrop(e, d);
    MirroredBack(JointEnd(e, Drop(d, e.b.key)), JointEnd(e, d));
  }

  /** While only the second model's record is left to remove, the first deletion's turns keep it so. */
  lemma StaysLate(e: Pair, d: Disk, moves: seq<Move>)
    requires Sound2(e, d) && !OrderMatters(e, d) && Late(Swapped(e), Other(d))
    ensures Late(Swapped(e), Other(FirstTurn(e, d, moves)))
  {
    var d' := FirstTurn(e, d, moves);
    TurnIgnores(e, d, moves);
    FirstTurnKeeps(e, d, moves);
    LateMeans(e, d);
    SwapDrop(e, d);
    FirstTurnKeeps(e, Drop(d, e.b.key), moves);
    LateMeans(e, d');
    assert HasReceipt(d'.store, e.b.key) ==> d'.store.children[e.b.key] == d.store.children[e.b.key];
  }

  // ---- every run ----

  ghost predicate OnCourse(e: Pair, r: Joint, goal: Ending) {
    && Sound2(e, r.disk) && !OrderMatters(e, r.disk) && JointEnd(e, r.disk) == goal
    && (r.doneA ==> Late(e, r.disk)) && (r.doneB ==> Late(Swapped(e), Other(r.disk)))
    && (r.doneA && r.doneB ==> JointEnd(e, Drop(Drop(r.disk, e.b.key), e.a.key)) == goal)
  }

  lemma SwapCourse(e: Pair, r: Joint, goal: Ending)
    requires OnCourse(e, r, goal)
    ensures OnCourse(Swapped(e), SwappedRun(r), Mirrored(goal))
  {
    var d := r.disk;
    SwapKeepsSound(e, d);
    SwapNeeded(e, d);
    SwapJoint(e, d);
    assert Swapped(Swapped(e)) == e && Other(Other(d)) == d;
    if r.doneA && r.doneB {
      SwapDrop(e, d);
      var t := Drop(d, e.b.key);
      DropSound(e, t);
      SwapJoint(e, Drop(t, e.a.key));
      DropTwice(d.store.children, e.a.key, e.b.key);
      assert Drop(Drop(Other(d), e.a.key), e.b.key) == Other(Drop(t, e.a.key));
    }
  }

  lemma WorkStaysOnCourse(e: Pair, r: Joint, act: Act, goal: Ending)
    requires OnCourse(e, r, goal) && act.Works?
    ensures OnCourse(e, FirstAct(e, r, act), goal)
  {
    var d, d' := r.disk, FirstTurn(e, r.disk, act.moves);
    FirstTurnKeeps(e, d, act.moves);
    if PointReached(e, d, act.moves).Cleaned? { TurnEndsLate(e, d, act.moves); }
    if r.doneB {
      StaysLate(e, d, act.moves);
      TurnIgnores(e, d, act.moves);
      SwapDrop(e, d);
      LateMeans(e, d');
      if PointReached(e, d, act.moves).Cleaned? { TurnEndsLate(e, Drop(d, e.b.key), act.moves); }
    }
  }

  lemma RemovedIsDropped(e: Pair, d: Disk)
    requires Late(e, d)
    ensures Removed(e, d) == Drop(d, e.a.key).(next := d.next + 1)
  {
    if e.a.key !in d.store.children { assert d.store.children - {e.a.key} == d.store.children; }
  }

  lemma RemovedKeeps(e: Pair, d: Disk)
    requires Sound2(e, d) && Late(e, d)
    ensures var t := Drop(d, e.a.key).(next := d.next + 1);
            Removed(e, d) == t && Sound2(e, t) && !OrderMatters(e, t) && JointEnd(e, t) == JointEnd(e, d)
  {
    RemovedIsDropped(e, d);
    DropSound(e, d);
    NumberIsSound(e, Drop(d, e.a.key));
    NumberIsNoGoal(e, Drop(d, e.a.key), d.next + 1);
  }

  lemma RemovalStaysOnCourse(e: Pair, r: Joint, goal: Ending)
    requires OnCourse(e, r, goal) && r.doneA
    ensures OnCourse(e, Joint(Removed(e, r.disk), false, r.doneB), goal)
  {
    var d := r.disk;
    RemovedKeeps(e, d);
    var t := Removed(e, d);
    assert r.doneB ==> Late(Swapped(e), Other(t)) by { if r.doneB { OtherStaysLate(e, d, goal); } }
    OneIsLeft(e, Joint(t, false, r.doneB), goal);
  }

  lemma OneIsLeft(e: Pair, r: Joint, goal: Ending)
    requires Sound2(e, r.disk) && !OrderMatters(e, r.disk) && JointEnd(e, r.disk) == goal
    requires !r.doneA && (r.doneB ==> Late(Swapped(e), Other(r.disk)))
    ensures OnCourse(e, r, goal)
  {
  }

  lemma RemovedBoth(e: Pair, d: Disk)
    ensures Drop(Drop(d, e.a.key).(next := d.next + 1), e.b.key) ==
              Drop(Drop(d, e.b.key), e.a.key).(next := d.next + 1)
  {
    DropTwice(d.store.children, e.a.key, e.b.key);
  }

  lemma OtherStaysLate(e: Pair, d: Disk, goal: Ending)
    requires Sound2(e, d) && Late(e, d) && Late(Swapped(e), Other(d)) && JointEnd(e, d) == goal
    requires JointEnd(e, Drop(Drop(d, e.b.key), e.a.key)) == goal
    ensures Late(Swapped(e), Other(Drop(d, e.a.key).(next := d.next + 1)))
  {
    RemovedKeeps(e, d);
    var u := Drop(d, e.a.key).(next := d.next + 1);
    assert JointEnd(e, Drop(u, e.b.key)) == goal by {
      RemovedBoth(e, d);
      NumberIsNoGoal(e, Drop(Drop(d, e.b.key), e.a.key), d.next + 1);
    }
    StaysQuiet(e, d);
    SecondIsLate(e, u);
  }

  lemma SecondIsLate(e: Pair, d: Disk)
    requires Sound2(e, d) && Quiet(e.id, e.b.key, View(d)) && JointEnd(e, Drop(d, e.b.key)) == JointEnd(e, d)
    requires HasReceipt(d.store, e.b.key) ==> d.store.children[e.b.key].pendingDeletion.value.uid == e.b.uid
    ensures Late(Swapped(e), Other(d))
  {
    LateMeans(e, d);
  }

  lemma StaysQuiet(e: Pair, d: Disk)
    requires Quiet(e.id, e.b.key, View(d)) && e.a.key != e.b.key
    ensures var u := Drop(d, e.a.key).(next := d.next + 1);
            Quiet(e.id, e.b.key, View(u)) && Get(u.store.children, e.b.key) == Get(d.store.children, e.b.key)
  {
  }

  lemma ActStaysOnCourse(e: Pair, r: Joint, act: Act, goal: Ending)
    requires OnCourse(e, r, goal)
    ensures OnCourse(e, FirstAct(e, r, act), goal)
  {
    if act.Works? { WorkStaysOnCourse(e, r, act, goal); } else if r.doneA { RemovalStaysOnCourse(e, r, goal); }
  }

  lemma {:induction false} ActsStayOnCourse(e: Pair, r: Joint, acts: seq<Act>, goal: Ending)
    requires OnCourse(e, r, goal)
    ensures OnCourse(e, TakeActs(e, r, acts), goal)
  {
    if acts != [] {
      var mid, act := TakeActs(e, r, acts[..|acts| - 1]), acts[|acts| - 1];
      ActsStayOnCourse(e, r, acts[..|acts| - 1], goal);
      if act.second {
        SwapCourse(e, mid, goal);
        ActStaysOnCourse(Swapped(e), SwappedRun(mid), act, Mirrored(goal));
        SwapCourse(Swapped(e), FirstAct(Swapped(e), SwappedRun(mid), act), Mirrored(goal));
        assert Swapped(Swapped(e)) == e && Mirrored(Mirrored(goal)) == goal;
      } else {
        ActStaysOnCourse(e, mid, act, goal);
      }
    }
  }

  /**
   However the two deletions take turns, stop, run again and remove their records late: once both records
   are gone, all other records and files are those of the common goal, which the first state determines.
   */
  lemma EveryOrderEndsTheSame(e: Pair, d: Disk, acts: seq<Act>)
    requires Sound2(e, d) && !OrderMatters(e, d) && BothGone(e, TakeActs(e, Started(d), acts).disk)
    ensures Outcome2(e, TakeActs(e, Started(d), acts).disk) == JointEnd(e, d)
  {
    ActsStayOnCourse(e, Started(d), acts, JointEnd(e, d));
  }

  // ---- the exact condition ----

  function Acts(turns: seq<Turn>): seq<Act> {
    seq(|turns|, i requires 0 <= i < |turns| => Works(turns[i].second, turns[i].moves))
  }

  lemma {:induction false} TurnsAreActs(e: Pair, r: Joint, turns: seq<Turn>)
    ensures TakeActs(e, r, Acts(turns)).disk == TakeTurns(e, r.disk, turns)
  {
    if turns != [] {
      TurnsAreActs(e, r, turns[..|turns| - 1]);
      assert Acts(turns)[..|turns| - 1] == Acts(turns[..|turns| - 1]);
    }
  }

  /** Two runs that finish both deletions and leave other records or files. */
  predicate EndApart(e: Pair, d: Disk, t: seq<Act>, u: seq<Act>) {
    var x, y := TakeActs(e, Started(d), t).disk, TakeActs(e, Started(d), u).disk;
    BothGone(e, x) && BothGone(e, y) && Outcome2(e, x) != Outcome2(e, y)
  }

  /** The order of the two deletions decides what is left exactly where one of them loses out. */
  lemma OrderDecidesIff(e: Pair, d: Disk)
    requires Sound2(e, d)
    ensures OrderMatters(e, d) <==> exists t, u :: EndApart(e, d, t, u)
  {
    if OrderMatters(e, d) {
      var t, u := OrderDecides(e, d);
      TurnsAreActs(e, Started(d), t);
      TurnsAreActs(e, Started(d), u);
      assert EndApart(e, d, Acts(t), Acts(u));
    } else {
      forall t, u ensures !EndApart(e, d, t, u) {
        if EndApart(e, d, t, u) {
          EveryOrderEndsTheSame(e, d, t);
          EveryOrderEndsTheSame(e, d, u);
        }
      }
    }
  }

  function AttachedChild(id: Identity): Child {
    Child("", ModelReady, None, None, Some(id), None, None)
  }

  /** Two models share a directory, alone; the first one's path is wanted by another consumer, its link lost. */
  function LostLink(e: Pair): Disk {
    var p := Parent(e.home, Ready, NO_LOCK, 1, map[e.a.key := e.a.path, e.b.key := e.b.path], map[]);
    Disk(Store(map[e.id := p], map[e.a.key := AttachedChild(e.id), e.b.key := AttachedChild(e.id)]), 2, true, Wrote(1),
         false, true)
  }

  lemma LostLinkIsDecidedByOrder(e: Pair)
    requires e.a.key != e.b.key && e.a.path != e.b.path && e.a.path != "" && e.b.path != "" && e.home.identity == e.id
    requires e.a.kept && !e.b.kept && !e.others
    ensures Sound2(e, LostLink(e)) && exists t, u :: EndApart(e, LostLink(e), t, u)
  {
    var d := LostLink(e);
    AttachedPairIsSound(e, d);
    assert Without2(e, d.store.parents[e.id]).children == map[];
    OrderDecidesIff(e, d);
  }
}
