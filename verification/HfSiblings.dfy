/**
 Two models of one shared directory deleted side by side (HfDeletion). Both Delete tasks work under the
 parent's file lock, so one of them runs at a time, until it finishes or stops at any point; the next
 turn is either's. While one's stopped deletion owns the parent, the other can only wait.
 */
module HfSiblings {
  import opened HfTypes
  import opened HfRepository
  import opened HfRuns
  import opened HfProtocol
  import opened HfDeletion

  /** One of the two models, as `HfDeletion.Env` describes it. */
  datatype Member = Member(key: ModelKey, uid: Uid, path: Path, kept: bool, current: bool)

  /** `others`: further symlinks point at the directory. */
  datatype Pair = Pair(id: Identity, home: DirPath, a: Member, b: Member, others: bool)

  datatype Disk = Disk(store: Store, next: LockId, present: bool, marker: Marker, linkedA: bool, linkedB: bool)

  function Swapped(e: Pair): Pair {
    e.(a := e.b, b := e.a)
  }

  function Other(d: Disk): Disk {
    d.(linkedA := d.linkedB, linkedB := d.linkedA)
  }

  // ---- turns ----

  function EnvOf(e: Pair, d: Disk): Env {
    Env(e.id, e.home, e.a.key, e.a.uid, e.a.path, e.a.kept, e.others || d.linkedB, e.a.current)
  }

  function View(d: Disk): Persistent {
    Persistent(d.store, d.next, d.present, d.marker, d.linkedA)
  }

  function Back(d: Disk, s: Persistent): Disk {
    Disk(s.store, s.next, s.present, s.marker, s.linked, d.linkedB)
  }

  /** The first model's task runs these moves from its beginning and then ends or crashes. */
  function FirstTurn(e: Pair, d: Disk, moves: seq<Move>): Disk {
    Back(d, PlayAll(EnvOf(e, d), Machine(View(d), Begin), moves).disk)
  }

  datatype Turn = Turn(second: bool, moves: seq<Move>)

  function TakeTurn(e: Pair, d: Disk, t: Turn): Disk {
    if t.second then Other(FirstTurn(Swapped(e), Other(d), t.moves)) else FirstTurn(e, d, t.moves)
  }

  function {:tailrecursion false} TakeTurns(e: Pair, d: Disk, turns: seq<Turn>): Disk {
    if turns == [] then d else TakeTurn(e, TakeTurns(e, d, turns[..|turns| - 1]), turns[|turns| - 1])
  }

  // ---- where both must end ----

  /** A reference, an intent or a receipt of this directory. */
  predicate IsShared(id: Identity, c: Child) {
    c.parentKey == Some(id) || c.pendingDeletion.Some? || c.pendingDownload.Some?
  }

  predicate Shared(s: Store, id: Identity, key: ModelKey) {
    key in s.children && IsShared(id, s.children[key])
  }

  predicate HasReceipt(s: Store, key: ModelKey) {
    key in s.children && s.children[key].pendingDeletion.Some?
  }

  /** This model's receipt names the lock on the record. */
  predicate OwnsParent(s: Store, id: Identity, key: ModelKey) {
    HasReceipt(s, key) && HoldsLock(s, id, s.children[key].pendingDeletion.value.parentLock)
  }

  /** Somebody else needs the directory: a further symlink or another model's intent. */
  predicate Needed(e: Pair, children: map<ModelKey, Child>) {
    e.others || exists k :: k in children && k != e.a.key && k != e.b.key && NamesDirectory(children[k], e.id, e.home)
  }

  datatype Ending = Ending(
    children: map<ModelKey, Child>,
    parents: map<Identity, Parent>,
    parent: Option<Parent>,
    present: bool,
    marker: Marker,
    linkedA: bool,
    linkedB: bool)

  function Mirrored(x: Ending): Ending {
    x.(linkedA := x.linkedB, linkedB := x.linkedA)
  }

  /** Records and files apart from the two models, lock numbers left out. */
  function Outcome2(e: Pair, d: Disk): Ending {
    Ending(d.store.children - {e.a.key, e.b.key}, d.store.parents - {e.id},
           if e.id in d.store.parents then Some(Unnumbered(d.store.parents[e.id])) else None,
           d.present, d.marker, d.linkedA, d.linkedB)
  }

  /** An unused parent given back with this status before. */
  function GivenBack(p: Parent, before: ParentStatus, marked: bool): Parent {
    Unnumbered(p.(children := map[], saved := map[], status := ReleaseTarget(before, marked), lockId := NO_LOCK,
                  lastCompleted := 1))
  }

  function FoundBefore(e: Pair, s: Store): ParentStatus
    requires e.id in s.parents
  {
    if OwnsParent(s, e.id, e.a.key) then s.children[e.a.key].pendingDeletion.value.StatusBeforeDeletion()
    else if OwnsParent(s, e.id, e.b.key) then s.children[e.b.key].pendingDeletion.value.StatusBeforeDeletion()
    else s.parents[e.id].status
  }

  /** The directory stays: somebody else needs it, or a path that is kept is linked or both paths are kept. */
  predicate Stays(e: Pair, d: Disk) {
    var sharedA, sharedB := Shared(d.store, e.id, e.a.key), Shared(d.store, e.id, e.b.key);
    || Needed(e, d.store.children)
    || (if sharedA && sharedB then (e.a.kept && (d.linkedA || e.b.kept)) || (e.b.kept && d.linkedB)
        else if sharedA then e.a.kept || d.linkedB
        else e.b.kept || d.linkedA)
  }

  /** The record without the two models. */
  function Without2(e: Pair, p: Parent): Parent {
    p.(children := p.children - {e.a.key, e.b.key}, saved := p.saved - {e.a.key, e.b.key})
  }

  /** What becomes of the directory: `left` is its record without the deleted models. */
  function Decided(end: Ending, left: Parent, stays: bool, before: ParentStatus): Ending {
    if left.children != map[] then end.(parent := Some(Unnumbered(left)))
    else if stays then end.(parent := Some(GivenBack(left, before, end.marker != NoMarker)))
    else end.(parent := None, present := false, marker := NoMarker)
  }

  /** Deletion removes the links of the paths that are not kept. */
  function Unlinked2(e: Pair, d: Disk): Ending {
    Outcome2(e, d).(linkedA := d.linkedA && (e.a.kept || !Shared(d.store, e.id, e.a.key)),
                    linkedB := d.linkedB && (e.b.kept || !Shared(d.store, e.id, e.b.key)))
  }

  function SettledEnd(e: Pair, d: Disk): Ending {
    if (Shared(d.store, e.id, e.a.key) || Shared(d.store, e.id, e.b.key)) && e.id in d.store.parents
    then Decided(Unlinked2(e, d), Without2(e, d.store.parents[e.id]), Stays(e, d), FoundBefore(e, d.store))
    else Unlinked2(e, d)
  }

  predicate NeedsSettling(e: Pair, d: Disk) {
    (Shared(d.store, e.id, e.a.key) || Shared(d.store, e.id, e.b.key)) && Abandoned(EnvOf(e, d), View(d))
  }

  /** An owner that stopped without a receipt is recovered first, whoever's turn it is. */
  function Settle(e: Pair, d: Disk): Disk {
    if NeedsSettling(e, d) then Back(d, Recovered(EnvOf(e, d), View(d))) else d
  }

  function JointEnd(e: Pair, d: Disk): Ending {
    SettledEnd(e, Settle(e, d))
  }

  /** A model that is to be kept, unlike the other, without its link and before it has a receipt. */
  predicate LosesOut(mine: Member, theirs: Member, linked: bool, s: Store) {
    mine.kept && !theirs.kept && !linked && !HasReceipt(s, mine.key)
  }

  /**
   The order matters: nobody else is recorded in the directory or needs it, and one of the two paths is
   kept for another consumer although its link is missing, before its deletion has begun.
   */
  predicate OrderMatters(e: Pair, d: Disk) {
    && Shared(d.store, e.id, e.a.key) && Shared(d.store, e.id, e.b.key)
    && e.id in d.store.parents && Without2(e, d.store.parents[e.id]).children == map[] && !Needed(e, d.store.children)
    && (LosesOut(e.a, e.b, d.linkedA, d.store) || LosesOut(e.b, e.a, d.linkedB, d.store))
  }

  // ---- what both tasks rely on ----

  predicate MemberOk(e: Pair, d: Disk) {
    e.a.path != "" && (e.a.key in d.store.children ==> ChildOk(EnvOf(e, d), View(d), d.store.children[e.a.key]))
  }

  ghost predicate ReceiptsFine(e: Pair, d: Disk) {
    forall k :: HasReceipt(d.store, k) ==>
      && d.store.children[k].pendingDeletion.value.parentLock < d.next
      && (k != e.a.key && k != e.b.key ==> !OwnsParent(d.store, e.id, k))
  }

  ghost predicate Local2(e: Pair, d: Disk) {
    && e.a.key != e.b.key && e.a.path != e.b.path && e.home.identity == e.id
    && MemberOk(e, d) && MemberOk(Swapped(e), Other(d)) && ReceiptsFine(e, d)
    && (e.id in d.store.parents ==> d.store.parents[e.id].localPath == e.home)
    && (d.marker.Wrote? ==> d.marker.lock < d.next)
    && !(OwnsParent(d.store, e.id, e.a.key) && OwnsParent(d.store, e.id, e.b.key))
  }

  ghost predicate Sound2(e: Pair, d: Disk) {
    Inv(World(d.store, d.next)) && Local2(e, d)
  }

  // ---- either may be called the first ----

  lemma SameSets(e: Pair)
    ensures {e.a.key, e.b.key} == {e.b.key, e.a.key}
  {
  }

  lemma SwapKeepsSound(e: Pair, d: Disk)
    requires Sound2(e, d)
    ensures Sound2(Swapped(e), Other(d))
  {
    assert Other(Other(d)) == d && Swapped(Swapped(e)) == e;
  }

  lemma SwapNeeded(e: Pair, d: Disk)
    ensures Needed(Swapped(e), d.store.children) == Needed(e, d.store.children)
    ensures OrderMatters(Swapped(e), Other(d)) == OrderMatters(e, d)
  {
    SameSets(e);
  }

  lemma SwapUnlinked(e: Pair, d: Disk)
    ensures Unlinked2(Swapped(e), Other(d)) == Mirrored(Unlinked2(e, d))
  {
    SameSets(e);
  }

  lemma SwapDecided(end: Ending, left: Parent, stays: bool, before: ParentStatus)
    ensures Decided(Mirrored(end), left, stays, before) == Mirrored(Decided(end, left, stays, before))
  {
  }

  lemma SwapSettled(e: Pair, d: Disk)
    requires !(OwnsParent(d.store, e.id, e.a.key) && OwnsParent(d.store, e.id, e.b.key))
    ensures SettledEnd(Swapped(e), Other(d)) == Mirrored(SettledEnd(e, d))
  {
    SwapUnlinked(e, d);
    SwapNeeded(e, d);
    if e.id in d.store.parents {
      SameSets(e);
      var p := d.store.parents[e.id];
      assert Without2(Swapped(e), p) == Without2(e, p);
      SwapDecided(Unlinked2(e, d), Without2(e, p), Stays(e, d), FoundBefore(e, d.store));
    }
  }

  lemma SoundFacts(e: Pair, d: Disk)
    requires Sound2(e, d)
    ensures Facts(EnvOf(e, d), View(d)) && Facts(EnvOf(Swapped(e), Other(d)), View(Other(d)))
  {
    InvGivesFacts(EnvOf(e, d), View(d));
    InvGivesFacts(EnvOf(Swapped(e), Other(d)), View(Other(d)));
  }

  lemma SwapSettle(e: Pair, d: Disk)
    ensures Settle(Swapped(e), Other(d)) == Other(Settle(e, d))
  {
  }

  /** Recovery frees the lock and changes nothing else that the two deletions look at. */
  lemma SettledFacts(e: Pair, d: Disk)
    requires Sound2(e, d)
    ensures var t := Settle(e, d);
            && t == d.(store := t.store, next := t.next)
            && t.store.children.Keys == d.store.children.Keys && t.store.parents.Keys == d.store.parents.Keys
            && (forall k :: k in d.store.children ==>
                t.store.children[k] == d.store.children[k].(status := t.store.children[k].status))
            && (NeedsSettling(e, d) ==> e.id in t.store.parents && t.store.parents[e.id].lockId == NO_LOCK)
            && (e.id in d.store.parents ==> t.store.parents[e.id].children == d.store.parents[e.id].children)
  {
    if NeedsSettling(e, d) {
      var p := d.store.parents[e.id];
      var status := if d.marker == Wrote(p.lockId) then Ready else Updating;
      SoundFacts(e, d);
      ReleaseEffect(d.store, e.id, p, status);
      assert SetStatus(d.store, e.id, p, status).Done?;
    }
  }

  lemma SwapJoint(e: Pair, d: Disk)
    requires Sound2(e, d)
    ensures JointEnd(Swapped(e), Other(d)) == Mirrored(JointEnd(e, d))
  {
    SettledFacts(e, d);
    SwapSettle(e, d);
    SwapSettled(e, Settle(e, d));
  }

  // ---- a turn in which the first model waits, or has nothing to do ----

  predicate Passive(e: Pair, d: Disk) {
    OwnsParent(d.store, e.id, e.b.key) || !Shared(d.store, e.id, e.a.key)
  }

  predicate PassivePoint(e: Pair, d: Disk, point: Point) {
    match point
    case Begin => true
    case Resuming(receipt) => HoldsReceipt(d.store, e.a.key, receipt) && OwnsParent(d.store, e.id, e.b.key)
    case Cleaned => !Shared(d.store, e.id, e.a.key)
    case Finished => !Shared(d.store, e.id, e.a.key)
    case _ => false
  }

  /** Everything is as before, except that the first model's intent became a receipt or its plain record is gone. */
  predicate OnlyMine(e: Pair, d: Disk, d': Disk) {
    && d' == d.(store := d'.store, next := d'.next) && d'.store.parents == d.store.parents
    && (d'.next == d.next + 1 || (d'.next == d.next && d'.store == d.store))
    && (|| d'.store.children == d.store.children
        || (!Shared(d.store, e.id, e.a.key) && d'.store.children == d.store.children - {e.a.key})
        || (e.a.key in d.store.children && d.store.children[e.a.key].pendingDownload.Some? &&
            var c := d.store.children[e.a.key];
            d'.store.children ==
              d.store.children[e.a.key := c.(pendingDownload := None,
                                             pendingDeletion := Some(c.pendingDownload.value.DeletionReceipt()))]))
  }

  /** The other model's stopped deletion owns the parent: no child is attached, and it is no abandoned owner's. */
  lemma OwnedByOther(e: Pair, d: Disk)
    requires Sound2(e, d) && OwnsParent(d.store, e.id, e.b.key)
    ensures e.id in d.store.parents && d.store.parents[e.id].children == map[]
    ensures d.store.parents[e.id].status == Updating
    ensures !Abandoned(EnvOf(e, d), View(d))
    ensures e.a.key in d.store.children ==> d.store.children[e.a.key].parentKey != Some(e.id)
  {
    SoundFacts(e, d);
    assert OwnedByReceipt(d.store, d.store.parents[e.id].lockId);
    assert !Lists(d.store, e.id, e.a.key) && !Names(d.store, e.id, e.a.key);
  }

  lemma WaitingIsRejected(e: Pair, d: Disk, receipt: PendingDeletion)
    requires Sound2(e, d) && OwnsParent(d.store, e.id, e.b.key) && HoldsReceipt(d.store, e.a.key, receipt)
    ensures Advance(EnvOf(e, d), Machine(View(d), Resuming(receipt))) == Machine(View(d), Begin)
  {
    OwnedByOther(e, d);
    SoundFacts(e, d);
    assert !OwnsParent(d.store, e.id, e.a.key);
  }

  lemma PassiveBegin(e: Pair, d: Disk)
    requires Sound2(e, d) && Passive(e, d)
    ensures var m := Advance(EnvOf(e, d), Machine(View(d), Begin));
            m.disk == View(Back(d, m.disk)) && OnlyMine(e, d, Back(d, m.disk))
              && PassivePoint(e, Back(d, m.disk), m.point)
  {
    if OwnsParent(d.store, e.id, e.b.key) { OwnedByOther(e, d); }
  }

  lemma PassiveFinish(e: Pair, d: Disk)
    requires Sound2(e, d) && !Shared(d.store, e.id, e.a.key)
    ensures var m := Advance(EnvOf(e, d), Machine(View(d), Cleaned));
            OnlyMine(e, d, Back(d, m.disk)) && m.point == Finished && e.a.key !in m.disk.store.children
  {
  }

  lemma PassiveMove(e: Pair, d: Disk, point: Point, move: Move)
    requires Sound2(e, d) && Passive(e, d) && PassivePoint(e, d, point)
    ensures var m := Play(EnvOf(e, d), Machine(View(d), point), move);
            OnlyMine(e, d, Back(d, m.disk)) && PassivePoint(e, Back(d, m.disk), m.point)
  {
    if move.Go? {
      match point
      case Begin => PassiveBegin(e, d);
      case Resuming(receipt) => WaitingIsRejected(e, d, receipt);
      case Cleaned => PassiveFinish(e, d);
      case Finished =>
    }
  }

  /** One model as the goal sees it: whether it is shared, and the receipt by which it owns the parent. */
  predicate SameRole(id: Identity, s: Store, t: Store, key: ModelKey) {
    && Shared(t, id, key) == Shared(s, id, key) && OwnsParent(t, id, key) == OwnsParent(s, id, key)
    && (OwnsParent(s, id, key) ==> t.children[key].pendingDeletion == s.children[key].pendingDeletion)
  }

  lemma SameNeeded(e: Pair, s: map<ModelKey, Child>, t: map<ModelKey, Child>)
    requires t - {e.a.key, e.b.key} == s - {e.a.key, e.b.key}
    ensures Needed(e, t) == Needed(e, s)
  {
    forall k | k != e.a.key && k != e.b.key ensures (k in s <==> k in t) && (k in s ==> s[k] == t[k]) {
      assert k in s ==> k in s - {e.a.key, e.b.key};
      assert k in t ==> k in t - {e.a.key, e.b.key};
    }
  }

  lemma SameSettled(e: Pair, d: Disk, d': Disk)
    requires d' == d.(store := d'.store, next := d'.next) && d'.store.parents == d.store.parents
    requires d'.store.children - {e.a.key, e.b.key} == d.store.children - {e.a.key, e.b.key}
    requires SameRole(e.id, d.store, d'.store, e.a.key) && SameRole(e.id, d.store, d'.store, e.b.key)
    ensures SettledEnd(e, d') == SettledEnd(e, d)
  {
    SameNeeded(e, d.store.children, d'.store.children);
    assert Unlinked2(e, d') == Unlinked2(e, d);
  }

  lemma OnlyMineRoles(e: Pair, d: Disk, d': Disk)
    requires Sound2(e, d) && OnlyMine(e, d, d')
    ensures SameRole(e.id, d.store, d'.store, e.a.key) && SameRole(e.id, d.store, d'.store, e.b.key)
    ensures d'.store.children - {e.a.key, e.b.key} == d.store.children - {e.a.key, e.b.key}
  {
    SoundFacts(e, d);
    assert e.b.key in d.store.children ==> d'.store.children[e.b.key] == d.store.children[e.b.key];
  }

  /** Whatever the record of a model that the parent does not list, recovery does the same. */
  lemma RecoveredAlike(env: Env, s: Persistent, t: Persistent, key: ModelKey)
    requires Abandoned(env, s) && Abandoned(env, t) && t == s.(store := t.store, next := t.next)
    requires t.store.parents == s.store.parents && t.store.children - {key} == s.store.children - {key}
    requires key !in s.store.parents[env.id].children
    ensures var a, b := Recovered(env, s).store, Recovered(env, t).store;
            && b.parents == a.parents && b.children - {key} == a.children - {key}
            && (key in b.children <==> key in t.store.children)
            && (key in t.store.children ==> b.children[key] == t.store.children[key])
  {
    var p := s.store.parents[env.id];
    SameStatuses(s.store, t.store, env.id, p, p, key);
    var statuses := StatusesToRestore(s.store, env.id, p, p);
    SameWritten(s.store.children, t.store.children, statuses, key);
  }

  lemma SameStatuses(s: Store, t: Store, id: Identity, p: Parent, expected: Parent, key: ModelKey)
    requires t.children - {key} == s.children - {key} && key !in p.children
    ensures StatusesToRestore(t, id, p, expected) == StatusesToRestore(s, id, p, expected)
    ensures key !in StatusesToRestore(s, id, p, expected)
  {
    forall k | k != key
      ensures (k in s.children <==> k in t.children) && (k in s.children ==> t.children[k] == s.children[k])
    {
      assert k in s.children ==> k in s.children - {key};
      assert k in t.children ==> k in t.children - {key};
    }
  }

  lemma SameWritten(s: map<ModelKey, Child>, t: map<ModelKey, Child>, statuses: map<ModelKey, ModelStatus>,
                    key: ModelKey)
    requires t - {key} == s - {key} && key !in statuses
    ensures WithStatuses(t, statuses) - {key} == WithStatuses(s, statuses) - {key}
  {
    forall k | k != key ensures (k in s <==> k in t) && (k in s ==> t[k] == s[k]) {
      assert k in s ==> k in s - {key};
      assert k in t ==> k in t - {key};
    }
  }

  lemma OnlyMineInv(e: Pair, d: Disk, d': Disk)
    requires Inv(World(d.store, d.next)) && OnlyMine(e, d, d') && MemberOk(e, d)
    ensures Inv(World(d'.store, d'.next))
  {
    if d'.store.children != d.store.children { ChildChangeKeeps(World(d.store, d.next), d'.store, e.a.key); }
  }

  lemma OnlyMineLocal(e: Pair, d: Disk, d': Disk)
    requires Sound2(e, d) && OnlyMine(e, d, d')
    ensures Local2(e, d')
  {
    OnlyMineRoles(e, d, d');
    OnlyMineMember(e, d, d');
    OnlyMineOther(e, d, d');
    OnlyMineReceipts(e, d, d');
  }

  lemma OnlyMineMember(e: Pair, d: Disk, d': Disk)
    requires MemberOk(e, d) && OnlyMine(e, d, d')
    ensures MemberOk(e, d')
  {
  }

  lemma OnlyMineOther(e: Pair, d: Disk, d': Disk)
    requires MemberOk(Swapped(e), Other(d)) && OnlyMine(e, d, d') && e.a.key != e.b.key
    ensures MemberOk(Swapped(e), Other(d'))
  {
    assert e.b.key in d'.store.children ==>
             e.b.key in d.store.children && d'.store.children[e.b.key] == d.store.children[e.b.key];
  }

  lemma OnlyMineReceipts(e: Pair, d: Disk, d': Disk)
    requires ReceiptsFine(e, d) && OnlyMine(e, d, d') && d.next != NO_LOCK
    ensures ReceiptsFine(e, d')
  {
    forall k | HasReceipt(d'.store, k)
      ensures d'.store.children[k].pendingDeletion.value.parentLock < d'.next
      ensures k != e.a.key && k != e.b.key ==> !OwnsParent(d'.store, e.id, k)
    {
      assert k != e.a.key ==> HasReceipt(d.store, k) && d'.store.children[k] == d.store.children[k];
      if k == e.a.key && HasReceipt(d.store, k) { }
    }
  }

  lemma OnlyMineSettled(e: Pair, d: Disk, d': Disk)
    requires Sound2(e, d) && Passive(e, d) && OnlyMine(e, d, d')
    ensures JointEnd(e, d') == JointEnd(e, d)
  {
    OnlyMineRoles(e, d, d');
    if OwnsParent(d.store, e.id, e.b.key) {
      OwnedByOther(e, d);
      OnlyMineInv(e, d, d');
      OnlyMineLocal(e, d, d');
      OwnedByOther(e, d');
      SameSettled(e, d, d');
    } else {
      IdleSettled(e, d, d');
    }
  }

  /** Two states that differ in the first model's record only, which is not listed. */
  predicate DiffersInFirst(e: Pair, d: Disk, d': Disk) {
    && d' == d.(store := d'.store, next := d'.next) && d'.store.parents == d.store.parents
    && d'.store.children - {e.a.key} == d.store.children - {e.a.key}
    && !Lists(d.store, e.id, e.a.key) && SameRole(e.id, d.store, d'.store, e.a.key)
  }

  lemma FirstRecordApart(e: Pair, d: Disk, d': Disk)
    requires DiffersInFirst(e, d, d') && e.a.key != e.b.key
    ensures SettledEnd(e, d') == SettledEnd(e, d)
  {
    MinusBoth(d.store.children, e.a.key, e.b.key);
    MinusBoth(d'.store.children, e.a.key, e.b.key);
    assert e.b.key in d.store.children ==> e.b.key in d.store.children - {e.a.key};
    assert e.b.key in d'.store.children ==> e.b.key in d'.store.children - {e.a.key};
    SameSettled(e, d, d');
  }

  lemma ApartRecovered(e: Pair, d: Disk, d': Disk)
    requires Sound2(e, d) && DiffersInFirst(e, d, d') && NeedsSettling(e, d) && NeedsSettling(e, d')
    ensures JointEnd(e, d') == JointEnd(e, d)
  {
    RecoveredAlike(EnvOf(e, d), View(d), View(d'), e.a.key);
    SettledFacts(e, d);
    var t, t' := Settle(e, d), Settle(e, d');
    assert e.a.key in t.store.children ==> t.store.children[e.a.key] == d.store.children[e.a.key] by {
      RecoveredAlike(EnvOf(e, d), View(d), View(d), e.a.key);
    }
    FirstRecordApart(e, t, t');
  }

  lemma IdleSettled(e: Pair, d: Disk, d': Disk)
    requires Sound2(e, d) && !Shared(d.store, e.id, e.a.key) && OnlyMine(e, d, d')
    ensures JointEnd(e, d') == JointEnd(e, d)
  {
    IdleAbandoned(e, d, d');
    OnlyMineRoles(e, d, d');
    SoundFacts(e, d);
    assert !Lists(d.store, e.id, e.a.key) by { assert !Names(d.store, e.id, e.a.key); }
    assert d'.store.children - {e.a.key} == d.store.children - {e.a.key};
    if NeedsSettling(e, d) { ApartRecovered(e, d, d'); } else { FirstRecordApart(e, d, d'); }
  }

  lemma IdleAbandoned(e: Pair, d: Disk, d': Disk)
    requires !Shared(d.store, e.id, e.a.key) && OnlyMine(e, d, d')
    ensures Abandoned(EnvOf(e, d'), View(d')) == Abandoned(EnvOf(e, d), View(d))
  {
    if e.id in d.store.parents {
      var lock := d.store.parents[e.id].lockId;
      if OwnedByReceipt(d.store, lock) {
        var k :| k in d.store.children && d.store.children[k].pendingDeletion.Some?
          && d.store.children[k].pendingDeletion.value.parentLock == lock;
        assert k != e.a.key && k in d'.store.children && d'.store.children[k] == d.store.children[k];
      }
    }
  }

  lemma OnlyMineKeeps(e: Pair, d: Disk, d': Disk)
    requires Sound2(e, d) && Passive(e, d) && OnlyMine(e, d, d')
    ensures Sound2(e, d') && Passive(e, d') && JointEnd(e, d') == JointEnd(e, d)
    ensures OrderMatters(e, d') ==> OrderMatters(e, d)
  {
    OnlyMineInv(e, d, d');
    OnlyMineLocal(e, d, d');
    OnlyMineRoles(e, d, d');
    OnlyMineSettled(e, d, d');
    SameNeeded(e, d.store.children, d'.store.children);
  }

  lemma PassiveStep(e: Pair, d: Disk, point: Point, move: Move)
    requires Sound2(e, d) && Passive(e, d) && PassivePoint(e, d, point)
    ensures var m := Play(EnvOf(e, d), Machine(View(d), point), move);
            var d' := Back(d, m.disk);
            && Sound2(e, d') && Passive(e, d') && PassivePoint(e, d', m.point)
            && d'.linkedA == d.linkedA && d'.linkedB == d.linkedB
            && JointEnd(e, d') == JointEnd(e, d) && (OrderMatters(e, d') ==> OrderMatters(e, d))
            && OwnsParent(d'.store, e.id, e.b.key) == OwnsParent(d.store, e.id, e.b.key)
  {
    PassiveMove(e, d, point, move);
    var d' := Back(d, Play(EnvOf(e, d), Machine(View(d), point), move).disk);
    OnlyMineKeeps(e, d, d');
    OnlyMineRoles(e, d, d');
  }

  /** However long the first model's task runs without being able to work, the common goal stays. */
  lemma {:induction false} PassiveTurn(e: Pair, d: Disk, moves: seq<Move>)
    requires Sound2(e, d) && Passive(e, d)
    ensures var m, d' := PlayAll(EnvOf(e, d), Machine(View(d), Begin), moves), FirstTurn(e, d, moves);
            && Sound2(e, d') && Passive(e, d') && PassivePoint(e, d', m.point)
            && d'.linkedA == d.linkedA && d'.linkedB == d.linkedB
            && JointEnd(e, d') == JointEnd(e, d) && (OrderMatters(e, d') ==> OrderMatters(e, d))
            && OwnsParent(d'.store, e.id, e.b.key) == OwnsParent(d.store, e.id, e.b.key)
  {
    if moves != [] {
      var front, last := moves[..|moves| - 1], moves[|moves| - 1];
      PassiveTurn(e, d, front);
      var m, mid := PlayAll(EnvOf(e, d), Machine(View(d), Begin), front), FirstTurn(e, d, front);
      assert EnvOf(e, mid) == EnvOf(e, d) && View(mid) == m.disk;
      PassiveStep(e, mid, m.point, last);
    }
  }

  // ---- the common goal, one deletion after the other ----

  function Lifted(f: Final, linkedB: bool): Ending {
    Ending(f.children, f.parents, f.parent, f.present, f.marker, f.linked, linkedB)
  }

  function WithoutKey(p: Parent, key: ModelKey): Parent {
    p.(children := p.children - {key}, saved := p.saved - {key})
  }

  /** What the second deletion makes of the end of the first. */
  function ThenSecond(e: Pair, x: Ending): Ending {
    var shared := e.b.key in x.children && IsShared(e.id, x.children[e.b.key]);
    var end := x.(children := x.children - {e.b.key}, linkedB := x.linkedB && (e.b.kept || !shared));
    if !shared || x.parent.None? then end
    else
      var left := WithoutKey(x.parent.value, e.b.key);
      Decided(end, left, e.b.kept || x.linkedA || Needed(e, end.children), x.parent.value.status)
  }

  /** The first deletion can work: it has a reference or a receipt, and nobody else owns the parent. */
  ghost predicate Working(e: Pair, d: Disk) {
    && Sound2(e, d) && InProgress(EnvOf(e, d), View(d)) && !HasIntent(EnvOf(e, d), View(d))
    && !Abandoned(EnvOf(e, d), View(d)) && !OwnsParent(d.store, e.id, e.b.key)
  }

  lemma LocalOf(e: Pair, d: Disk)
    requires Sound2(e, d) && !OwnsParent(d.store, e.id, e.b.key)
    ensures Local(EnvOf(e, d), View(d))
  {
    forall k | k in d.store.children && d.store.children[k].pendingDeletion.Some?
      ensures d.store.children[k].pendingDeletion.value.parentLock < d.next
      ensures k != e.a.key && e.id in d.store.parents && d.store.parents[e.id].lockId != NO_LOCK ==>
                d.store.children[k].pendingDeletion.value.parentLock != d.store.parents[e.id].lockId
    {
      assert HasReceipt(d.store, k);
      assert k != e.a.key ==> !OwnsParent(d.store, e.id, k);
    }
  }

  /** A held lock is this deletion's own, over an unused record. */
  lemma WorkingLock(e: Pair, d: Disk)
    requires Working(e, d) && e.id in d.store.parents && d.store.parents[e.id].lockId != NO_LOCK
    ensures OwnsParent(d.store, e.id, e.a.key) && d.store.parents[e.id].children == map[]
  {
    LocalOf(e, d);
    SoundFacts(e, d);
    HeldByThisReceipt(EnvOf(e, d), View(d));
  }

  /** Whether the first deletion, taken alone, leaves an unused directory in place. */
  predicate KeepsAlone(e: Pair, d: Disk) {
    e.a.kept || d.linkedB || e.others || HasPendingDownloads(d.store, e.id, e.home)
  }

  /** The end of the first deletion alone, before it is decided what becomes of the directory. */
  function FirstUnlinked(e: Pair, d: Disk): Ending {
    Lifted(Summary(EnvOf(e, d), View(d)).(linked := d.linkedA && e.a.kept), d.linkedB)
  }

  /** The first deletion's own goal, in the terms of the common one. */
  function OwnEnd(e: Pair, d: Disk): Ending {
    if e.id !in d.store.parents then FirstUnlinked(e, d)
    else Decided(FirstUnlinked(e, d), WithoutKey(d.store.parents[e.id], e.a.key), KeepsAlone(e, d),
                 FoundBefore(e, d.store))
  }

  lemma TargetForm(e: Pair, d: Disk)
    requires Working(e, d)
    ensures Lifted(SettledTarget(EnvOf(e, d), View(d)), d.linkedB) == OwnEnd(e, d)
  {
    SoundFacts(e, d);
    if e.id in d.store.parents && d.store.parents[e.id].lockId != NO_LOCK { WorkingLock(e, d); }
    if HasReceipt(d.store, e.a.key) { ReceiptForm(e, d); } else { AttachedForm(e, d); }
  }

  lemma ReceiptForm(e: Pair, d: Disk)
    requires Facts(EnvOf(e, d), View(d)) && HasReceipt(d.store, e.a.key) && !OwnsParent(d.store, e.id, e.b.key)
    requires e.id in d.store.parents && d.store.parents[e.id].lockId != NO_LOCK ==> OwnsParent(d.store, e.id, e.a.key)
    ensures Lifted(SettledTarget(EnvOf(e, d), View(d)), d.linkedB) == OwnEnd(e, d)
  {
    if e.id in d.store.parents {
      assert !Names(d.store, e.id, e.a.key) && !Lists(d.store, e.id, e.a.key);
      assert WithoutKey(d.store.parents[e.id], e.a.key) == d.store.parents[e.id];
    }
  }

  lemma AttachedForm(e: Pair, d: Disk)
    requires Facts(EnvOf(e, d), View(d)) && InProgress(EnvOf(e, d), View(d)) && !HasReceipt(d.store, e.a.key)
    requires !OwnsParent(d.store, e.id, e.b.key)
    requires e.id in d.store.parents ==> d.store.parents[e.id].lockId == NO_LOCK
    ensures Lifted(SettledTarget(EnvOf(e, d), View(d)), d.linkedB) == OwnEnd(e, d)
  {
  }

  lemma ReleaseTwice(before: ParentStatus, marked: bool)
    ensures ReleaseTarget(ReleaseTarget(before, marked), marked) == ReleaseTarget(before, marked)
  {
  }

  lemma MinusBoth<K, V>(m: map<K, V>, a: K, b: K)
    ensures m - {a} - {b} == m - {a, b}
  {
  }

  /** Numbers do not matter to what is left or given back. */
  lemma UnnumberedLeft(p: Parent, key: ModelKey, before: ParentStatus, marked: bool)
    ensures WithoutKey(Unnumbered(p), key) == Unnumbered(WithoutKey(p, key))
    ensures Unnumbered(Unnumbered(p)) == Unnumbered(p)
    ensures GivenBack(Unnumbered(p), before, marked) == GivenBack(p, before, marked)
    ensures WithoutKey(GivenBack(p, before, marked), key) == GivenBack(p, before, marked)
  {
    var given := GivenBack(p, before, marked);
    assert given.children - {key} == given.children && given.saved - {key} == given.saved;
  }

  lemma WithoutBoth(e: Pair, p: Parent)
    ensures WithoutKey(WithoutKey(p, e.a.key), e.b.key) == Without2(e, p)
  {
    MinusBoth(p.children, e.a.key, e.b.key);
    MinusBoth(p.saved, e.a.key, e.b.key);
  }

  /** The first was not the last child: only the second deletion decides. */
  lemma ThenAfterLeft(e: Pair, x: Ending, left: Parent, shared: bool, last: Parent)
    requires x.parent == Some(Unnumbered(left)) && last == WithoutKey(left, e.b.key)
    requires shared == (e.b.key in x.children && IsShared(e.id, x.children[e.b.key]))
    requires !shared ==> e.b.key !in left.children && e.b.key !in left.saved && left.children != map[]
    ensures var end := x.(children := x.children - {e.b.key}, linkedB := x.linkedB && (e.b.kept || !shared));
            ThenSecond(e, x) ==
              Decided(end, last, shared && (e.b.kept || x.linkedA || Needed(e, end.children)), left.status)
  {
    UnnumberedLeft(left, e.b.key, left.status, true);
    UnnumberedLeft(last, e.b.key, left.status, true);
    UnnumberedLeft(last, e.b.key, left.status, false);
    if !shared { assert last == left; }
  }

  /** The first deletion gave the unused parent back: the second keeps it or removes it. */
  lemma ThenAfterRelease(e: Pair, x: Ending, left: Parent, before: ParentStatus, shared: bool)
    requires left.children == map[] && x.parent == Some(GivenBack(left, before, x.marker != NoMarker))
    requires shared == (e.b.key in x.children && IsShared(e.id, x.children[e.b.key]))
    ensures var end := x.(children := x.children - {e.b.key}, linkedB := x.linkedB && (e.b.kept || !shared));
            ThenSecond(e, x) ==
              Decided(end, left, shared ==> e.b.kept || x.linkedA || Needed(e, end.children), before)
  {
    UnnumberedLeft(left, e.b.key, before, x.marker != NoMarker);
    ReleaseTwice(before, x.marker != NoMarker);
  }

  /** Who keeps an unused directory, deletion by deletion and together. */
  lemma KeepingAgrees(e: Pair, d: Disk)
    requires Working(e, d) && !OrderMatters(e, d) && e.id in d.store.parents
    requires Without2(e, d.store.parents[e.id]).children == map[]
    ensures var shared, nd := Shared(d.store, e.id, e.b.key), Needed(e, d.store.children);
            var second := shared ==> e.b.kept || (d.linkedA && e.a.kept) || nd;
            && (WithoutKey(d.store.parents[e.id], e.a.key).children == map[] ==>
                  (Stays(e, d) <==> KeepsAlone(e, d) && second))
            && (WithoutKey(d.store.parents[e.id], e.a.key).children != map[] ==> (Stays(e, d) <==> shared && second))
  {
    var p := d.store.parents[e.id];
    SoundFacts(e, d);
    WithoutBoth(e, p);
    assert Lists(d.store, e.id, e.b.key) <==> Names(d.store, e.id, e.b.key);
    var left := WithoutKey(p, e.a.key);
    if left.children != map[] {
      assert forall k :: k in left.children ==> k == e.b.key by {
        forall k | k in left.children ensures k == e.b.key { assert k != e.b.key ==> k in Without2(e, p).children; }
      }
      var k :| k in left.children;
      assert Names(d.store, e.id, e.b.key);
    } else {
      assert !Lists(d.store, e.id, e.b.key) by { assert e.b.key in p.children ==> e.b.key in left.children; }
    }
    IntentsSplit(e, d);
  }

  lemma IntentsSplit(e: Pair, d: Disk)
    requires Sound2(e, d) && !HasIntent(EnvOf(e, d), View(d))
    ensures e.others || HasPendingDownloads(d.store, e.id, e.home) <==>
              Needed(e, d.store.children) || HasIntent(EnvOf(Swapped(e), Other(d)), View(Other(d)))
  {
    if HasIntent(EnvOf(Swapped(e), Other(d)), View(Other(d))) {
      assert NamesDirectory(d.store.children[e.b.key], e.id, e.home);
    }
  }

  lemma UnlinkedBoth(e: Pair, d: Disk, x: Ending)
    requires e.a.key != e.b.key && Shared(d.store, e.id, e.a.key)
    requires x == FirstUnlinked(e, d).(parent := x.parent, present := x.present, marker := x.marker)
    ensures var shared := e.b.key in x.children && IsShared(e.id, x.children[e.b.key]);
            && shared == Shared(d.store, e.id, e.b.key)
            && x.(children := x.children - {e.b.key}, linkedB := x.linkedB && (e.b.kept || !shared)) ==
                 Unlinked2(e, d).(parent := x.parent, present := x.present, marker := x.marker)
            && Needed(e, x.children - {e.b.key}) == Needed(e, d.store.children)
  {
    NeededWithout(e, d.store.children);
  }

  lemma DecidedAlike(end: Ending, parent: Option<Parent>, left: Parent, left': Parent, stays: bool,
                     before: ParentStatus)
    requires left' == left || (left.children == map[] && left'.children == map[] && left'.localPath == left.localPath)
    ensures Decided(end.(parent := parent), left', stays, before) == Decided(end, left, stays, before)
  {
  }

  lemma FactorLeft(e: Pair, d: Disk)
    requires Working(e, d) && !OrderMatters(e, d) && e.id in d.store.parents
    requires WithoutKey(d.store.parents[e.id], e.a.key).children != map[]
    ensures SettledEnd(e, d) == ThenSecond(e, Lifted(SettledTarget(EnvOf(e, d), View(d)), d.linkedB))
  {
    var p := d.store.parents[e.id];
    var left, shared := WithoutKey(p, e.a.key), Shared(d.store, e.id, e.b.key);
    var x := FirstUnlinked(e, d).(parent := Some(Unnumbered(left)));
    TargetForm(e, d);
    assert Lifted(SettledTarget(EnvOf(e, d), View(d)), d.linkedB) == x;
    UnlinkedBoth(e, d, x);
    WithoutBoth(e, p);
    SoundFacts(e, d);
    assert Lists(d.store, e.id, e.b.key) <==> Names(d.store, e.id, e.b.key);
    ThenAfterLeft(e, x, left, shared, Without2(e, p));
    if p.lockId != NO_LOCK { WorkingLock(e, d); }
    if Without2(e, p).children == map[] { KeepingAgrees(e, d); }
    DecidedAlike(Unlinked2(e, d), x.parent, Without2(e, p), Without2(e, p), Stays(e, d), p.status);
  }

  lemma FactorUnused(e: Pair, d: Disk)
    requires Working(e, d) && !OrderMatters(e, d) && e.id in d.store.parents
    requires WithoutKey(d.store.parents[e.id], e.a.key).children == map[]
    ensures SettledEnd(e, d) == ThenSecond(e, Lifted(SettledTarget(EnvOf(e, d), View(d)), d.linkedB))
  {
    var p, before := d.store.parents[e.id], FoundBefore(e, d.store);
    var left, shared := WithoutKey(p, e.a.key), Shared(d.store, e.id, e.b.key);
    var x := Decided(FirstUnlinked(e, d), left, KeepsAlone(e, d), before);
    TargetForm(e, d);
    assert Lifted(SettledTarget(EnvOf(e, d), View(d)), d.linkedB) == x;
    UnlinkedBoth(e, d, x);
    WithoutBoth(e, p);
    assert Without2(e, p).children == map[];
    KeepingAgrees(e, d);
    if KeepsAlone(e, d) {
      ThenAfterRelease(e, x, left, before, shared);
      DecidedAlike(Unlinked2(e, d), x.parent, Without2(e, p), left, Stays(e, d), before);
    }
  }

  lemma FactorSettled(e: Pair, d: Disk)
    requires Working(e, d) && !OrderMatters(e, d)
    ensures SettledEnd(e, d) == ThenSecond(e, Lifted(SettledTarget(EnvOf(e, d), View(d)), d.linkedB))
  {
    if e.id !in d.store.parents {
      TargetForm(e, d);
      UnlinkedBoth(e, d, FirstUnlinked(e, d));
    } else if WithoutKey(d.store.parents[e.id], e.a.key).children != map[] {
      FactorLeft(e, d);
    } else {
      FactorUnused(e, d);
    }
  }

  // ---- from any state in which the first deletion can work ----

  ghost predicate Active(e: Pair, d: Disk) {
    Sound2(e, d) && Shared(d.store, e.id, e.a.key) && !OwnsParent(d.store, e.id, e.b.key)
  }

  /** With the first model's intent turned into a receipt. */
  function Prepared(e: Pair, d: Disk): Disk {
    if HasIntent(EnvOf(e, d), View(d)) then Back(d, Converted(EnvOf(e, d), View(d))) else d
  }

  lemma PreparedIsMine(e: Pair, d: Disk)
    requires Active(e, d)
    ensures HasIntent(EnvOf(e, d), View(d)) ==> OnlyMine(e, d, Prepared(e, d))
    ensures Sound2(e, Prepared(e, d)) && Active(e, Prepared(e, d)) && !HasIntent(EnvOf(e, d), View(Prepared(e, d)))
  {
    SoundFacts(e, d);
    if HasIntent(EnvOf(e, d), View(d)) {
      OnlyMineInv(e, d, Prepared(e, d));
      OnlyMineLocal(e, d, Prepared(e, d));
      OnlyMineRoles(e, d, Prepared(e, d));
    }
  }

  lemma PreparedGoal(e: Pair, d: Disk)
    requires Active(e, d)
    ensures JointEnd(e, Prepared(e, d)) == JointEnd(e, d)
    ensures OrderMatters(e, Prepared(e, d)) ==> OrderMatters(e, d)
  {
    var d' := Prepared(e, d);
    PreparedIsMine(e, d);
    if HasIntent(EnvOf(e, d), View(d)) {
      OnlyMineRoles(e, d, d');
      SameNeeded(e, d.store.children, d'.store.children);
      SoundFacts(e, d);
      PreparedAbandoned(e, d);
      assert !Lists(d.store, e.id, e.a.key) by { assert !Names(d.store, e.id, e.a.key); }
      assert d'.store.children - {e.a.key} == d.store.children - {e.a.key};
      if NeedsSettling(e, d) { ApartRecovered(e, d, d'); } else { FirstRecordApart(e, d, d'); }
    }
  }

  lemma PreparedAbandoned(e: Pair, d: Disk)
    requires Active(e, d) && HasIntent(EnvOf(e, d), View(d))
    ensures Abandoned(EnvOf(e, d), View(Prepared(e, d))) == Abandoned(EnvOf(e, d), View(d))
  {
    var d' := Prepared(e, d);
    PreparedIsMine(e, d);
    SoundFacts(e, d);
    if e.id in d.store.parents && OwnedByReceipt(d.store, d.store.parents[e.id].lockId) {
      var lock := d.store.parents[e.id].lockId;
      var k :| k in d.store.children && d.store.children[k].pendingDeletion.Some?
        && d.store.children[k].pendingDeletion.value.parentLock == lock;
      assert k in d'.store.children && d'.store.children[k].pendingDeletion == d.store.children[k].pendingDeletion;
    }
  }

  lemma RecoveredInv(env: Env, s: Persistent)
    requires Inv(World(s.store, s.next)) && Abandoned(env, s)
    ensures Inv(World(Recovered(env, s).store, Recovered(env, s).next))
  {
    var p := s.store.parents[env.id];
    StepKeepsInv(World(s.store, s.next), Release(env.id, p, if s.marker == Wrote(p.lockId) then Ready else Updating));
  }

  lemma SettledInv(e: Pair, d: Disk)
    requires Sound2(e, d)
    ensures var t := Settle(e, d); Inv(World(t.store, t.next))
  {
    if NeedsSettling(e, d) {
      RecoveredInv(EnvOf(e, d), View(d));
    }
  }

  lemma SettledMember(e: Pair, d: Disk)
    requires Sound2(e, d) && NeedsSettling(e, d)
    ensures MemberOk(e, Settle(e, d)) && Settle(e, d).store.parents[e.id].localPath == e.home
  {
    SettledFacts(e, d);
    SoundFacts(e, d);
    var p := d.store.parents[e.id];
    ReleaseEffect(d.store, e.id, p, if d.marker == Wrote(p.lockId) then Ready else Updating);
  }

  lemma SettledSound(e: Pair, d: Disk)
    requires Sound2(e, d)
    ensures Sound2(e, Settle(e, d))
  {
    if NeedsSettling(e, d) {
      SettledInv(e, d);
      SettledFacts(e, d);
      SettledMember(e, d);
      SwapKeepsSound(e, d);
      SwapSettle(e, d);
      SettledMember(Swapped(e), Other(d));
    }
  }

  lemma SettledNeeded(e: Pair, d: Disk)
    requires Sound2(e, d)
    ensures Needed(e, Settle(e, d).store.children) == Needed(e, d.store.children)
  {
    SettledFacts(e, d);
    var t := Settle(e, d);
    forall k ensures (k in d.store.children && NamesDirectory(d.store.children[k], e.id, e.home)) <==>
                     (k in t.store.children && NamesDirectory(t.store.children[k], e.id, e.home)) { }
  }

  lemma SettledOrder(e: Pair, d: Disk)
    requires Sound2(e, d)
    ensures OrderMatters(e, Settle(e, d)) == OrderMatters(e, d)
  {
    SettledFacts(e, d);
    SettledNeeded(e, d);
  }

  lemma SettledWorks(e: Pair, d: Disk)
    requires Active(e, d) && !HasIntent(EnvOf(e, d), View(d))
    ensures Working(e, Settle(e, d))
    ensures ReceiptTarget(EnvOf(e, d), View(d)) == SettledTarget(EnvOf(e, d), View(Settle(e, d)))
  {
    SettledSound(e, d);
    SettledFacts(e, d);
  }

  /** The common goal is what the second deletion makes of the first one's goal. */
  lemma Factor(e: Pair, d: Disk)
    requires Active(e, d) && !OrderMatters(e, d)
    ensures JointEnd(e, d) == ThenSecond(e, Lifted(Target(EnvOf(e, d), View(d)), d.linkedB))
  {
    var d1 := Prepared(e, d);
    PreparedIsMine(e, d);
    PreparedGoal(e, d);
    var d2 := Settle(e, d1);
    SettledWorks(e, d1);
    SettledOrder(e, d1);
    SettledFacts(e, d1);
    FactorSettled(e, d2);
  }

  lemma GoneEnd(e: Pair, d: Disk)
    requires e.a.key !in d.store.children
    requires e.id in d.store.parents ==>
               var p := d.store.parents[e.id]; p.lockId == NO_LOCK && Without2(e, p) == WithoutKey(p, e.b.key)
    ensures SettledEnd(e, d) == ThenSecond(e, Lifted(Summary(EnvOf(e, d), View(d)), d.linkedB))
  {
    NeededWithout(e, d.store.children);
    var x := Lifted(Summary(EnvOf(e, d), View(d)), d.linkedB);
    assert x.children - {e.b.key} == Unlinked2(e, d).children;
    assert (e.b.key in x.children && IsShared(e.id, x.children[e.b.key])) == Shared(d.store, e.id, e.b.key);
    if Shared(d.store, e.id, e.b.key) && e.id in d.store.parents {
      var p := d.store.parents[e.id];
      UnnumberedLeft(p, e.b.key, p.status, d.marker != NoMarker);
      DecidedNumbers(Unlinked2(e, d), Without2(e, p), Stays(e, d), p.status);
    }
  }

  lemma NeededWithout(e: Pair, children: map<ModelKey, Child>)
    ensures children - {e.a.key} - {e.b.key} == children - {e.a.key, e.b.key}
    ensures Needed(e, children - {e.a.key, e.b.key}) == Needed(e, children)
  {
    MinusBoth(children, e.a.key, e.b.key);
    assert children - {e.a.key, e.b.key} - {e.a.key, e.b.key} == children - {e.a.key, e.b.key};
    SameNeeded(e, children, children - {e.a.key, e.b.key});
  }

  /** Once the first model is gone and nobody holds the parent, only the second deletion is left. */
  lemma FactorGone(e: Pair, d: Disk)
    requires Sound2(e, d) && e.a.key !in d.store.children
    requires e.id in d.store.parents ==> d.store.parents[e.id].lockId == NO_LOCK
    ensures JointEnd(e, d) == ThenSecond(e, Lifted(Summary(EnvOf(e, d), View(d)), d.linkedB))
  {
    if e.id in d.store.parents { GoneLeft(e, d); }
    GoneEnd(e, d);
  }

  lemma DecidedNumbers(end: Ending, left: Parent, stays: bool, before: ParentStatus)
    ensures Decided(end, Unnumbered(left), stays, before) == Decided(end, left, stays, before)
  {
  }

  lemma GoneLeft(e: Pair, d: Disk)
    requires Sound2(e, d) && e.a.key !in d.store.children && e.id in d.store.parents
    ensures Without2(e, d.store.parents[e.id]) == WithoutKey(d.store.parents[e.id], e.b.key)
  {
    SoundFacts(e, d);
    assert !Lists(d.store, e.id, e.a.key) by { assert !Names(d.store, e.id, e.a.key); }
    var p := d.store.parents[e.id];
    assert p.children - {e.a.key, e.b.key} == p.children - {e.b.key};
    assert p.saved - {e.a.key, e.b.key} == p.saved - {e.b.key};
  }

  // ---- what one deletion leaves alone ----

  /** A mutation of this deletion. */
  predicate Mine(env: Env, op: Op) {
    match op
    case Release(id, _, _) => id == env.id
    case RemoveReference(id, _, key, _, _, pending, _) => id == env.id && key == env.key && pending
    case DeleteParent(id, _) => id == env.id
    case BeginDownloadDeletion(key, _, _, _, _) => key == env.key
    case Claim(key, _, _, _, _) => key == env.key
    case OwnDeletion(key, receipt, _, _) => key == env.key && receipt.identity == env.id
    case Remove(key, _) => key == env.key
    case _ => false
  }

  /** Other children keep their records up to the status, the parent keeps its other children or had none. */
  ghost predicate OthersKept(id: Identity, key: ModelKey, s: Store, t: Store) {
    && (forall k :: k != key ==> (k in t.children <==> k in s.children))
    && (forall k :: k != key && k in s.children && k in t.children ==>
          t.children[k] == s.children[k].(status := t.children[k].status))
    && (id in t.parents ==> id in s.parents && t.parents[id].children - {key} == s.parents[id].children - {key})
    && (id in s.parents && id !in t.parents ==> s.parents[id].children - {key} == map[])
  }

  /** The deleted model stays shared until its record goes, and a receipt stays. */
  predicate StaysShared(id: Identity, key: ModelKey, s: Store, t: Store) {
    key in t.children ==>
      && key in s.children && Shared(t, id, key) == Shared(s, id, key)
      && (HasReceipt(s, key) ==> HasReceipt(t, key))
  }

  lemma ReleaseFrame(env: Env, w: World, op: Op)
    requires Inv(w) && op.Release? && op.id == env.id
    ensures var t := Step(w, op).store;
            OthersKept(env.id, env.key, w.store, t) && StaysShared(env.id, env.key, w.store, t)
  {
    ReleaseEffect(w.store, op.id, op.expected, op.status);
  }

  lemma DetachFrame(env: Env, w: World, op: Op)
    requires op.RemoveReference? && Mine(env, op)
    ensures var t := Step(w, op).store;
            OthersKept(env.id, env.key, w.store, t) && StaysShared(env.id, env.key, w.store, t)
  {
  }

  lemma OwnFrame(env: Env, w: World, op: Op)
    requires (op.OwnDeletion? || op.DeleteParent?) && Mine(env, op)
    ensures var t := Step(w, op).store;
            OthersKept(env.id, env.key, w.store, t) && StaysShared(env.id, env.key, w.store, t)
  {
  }

  lemma MutationFrame(env: Env, w: World, op: Op)
    requires Inv(w) && Mine(env, op)
    ensures var t := Step(w, op).store;
            OthersKept(env.id, env.key, w.store, t) && StaysShared(env.id, env.key, w.store, t)
  {
    if op.Release? {
      ReleaseFrame(env, w, op);
    } else if op.RemoveReference? {
      DetachFrame(env, w, op);
    } else if op.OwnDeletion? || op.DeleteParent? {
      OwnFrame(env, w, op);
    }
  }

  lemma MutationIsMine(env: Env, m: Machine)
    requires Local(env, m.disk) && PointOk(env, m.disk, m.point) && Mutation(env, m).Some?
    ensures Mine(env, Mutation(env, m).value)
  {
  }

  /** What survives of the state apart from this deletion's own records. */
  ghost predicate Framed(env: Env, s: Persistent, t: Persistent) {
    && OthersKept(env.id, env.key, s.store, t.store) && StaysShared(env.id, env.key, s.store, t.store)
    && (t.marker == s.marker || t.marker == NoMarker) && (env.kept ==> t.linked == s.linked) && s.next <= t.next
  }

  lemma FramedOn(env: Env, s: Persistent, t: Persistent, u: Persistent)
    requires Framed(env, s, t) && Framed(env, t, u)
    ensures Framed(env, s, u)
  {
  }

  lemma AdvanceFiles(env: Env, m: Machine)
    requires PointOk(env, m.disk, m.point)
    ensures var s, t := m.disk, Advance(env, m).disk;
            (t.marker == s.marker || t.marker == NoMarker) && (env.kept ==> t.linked == s.linked)
  {
  }

  lemma MoveFrame(env: Env, m: Machine, move: Move)
    requires Valid(env, m)
    ensures Framed(env, m.disk, Play(env, m, move).disk)
  {
    if move.Go? {
      AdvanceFiles(env, m);
      AdvanceWrites(env, m);
      if Mutation(env, m).Some? {
        MutationIsMine(env, m);
        MutationFrame(env, World(m.disk.store, m.disk.next), Mutation(env, m).value);
      }
    }
  }

  lemma {:induction false} TurnFrame(env: Env, m: Machine, moves: seq<Move>)
    requires Valid(env, m)
    ensures Framed(env, m.disk, PlayAll(env, m, moves).disk)
  {
    if moves != [] {
      var front := moves[..|moves| - 1];
      TurnFrame(env, m, front);
      PlayAllKeeps(env, m, front);
      MoveFrame(env, PlayAll(env, m, front), moves[|moves| - 1]);
      FramedOn(env, m.disk, PlayAll(env, m, front).disk, PlayAll(env, m, moves).disk);
    }
  }

  // ---- a turn in which the first deletion can work ----

  /** The second model's record, its receipt and its listed path are as they were. */
  lemma SecondMemberKept(e: Pair, d: Disk, s: Persistent)
    requires MemberOk(Swapped(e), Other(d)) && e.a.key != e.b.key
    requires OthersKept(e.id, e.a.key, d.store, s.store) && (s.marker == d.marker || s.marker == NoMarker)
    requires !OwnsParent(s.store, e.id, e.b.key)
    ensures MemberOk(Swapped(e), Other(Back(d, s)))
  {
    if e.b.key in s.store.children {
      SecondPathKept(e, d.store, s.store);
      assert s.store.children[e.b.key] == d.store.children[e.b.key].(status := s.store.children[e.b.key].status);
    }
  }

  lemma SecondPathKept(e: Pair, s: Store, t: Store)
    requires e.a.key != e.b.key && OthersKept(e.id, e.a.key, s, t)
    ensures Lists(t, e.id, e.b.key) ==>
              Lists(s, e.id, e.b.key) && t.parents[e.id].children[e.b.key] == s.parents[e.id].children[e.b.key]
  {
    if Lists(t, e.id, e.b.key) {
      var m, n := s.parents[e.id].children, t.parents[e.id].children;
      assert e.b.key in n - {e.a.key} && e.b.key in m - {e.a.key};
      assert n[e.b.key] == (n - {e.a.key})[e.b.key] && m[e.b.key] == (m - {e.a.key})[e.b.key];
    }
  }

  lemma BackSound(e: Pair, d: Disk, s: Persistent)
    requires Sound2(e, d) && Sound(EnvOf(e, d), s) && Framed(EnvOf(e, d), View(d), s)
    ensures Sound2(e, Back(d, s)) && !OwnsParent(s.store, e.id, e.b.key)
  {
    var d' := Back(d, s);
    assert !OwnsParent(s.store, e.id, e.b.key) by { if HasReceipt(s.store, e.b.key) { } }
    SecondMemberKept(e, d, s);
    assert EnvOf(e, d') == EnvOf(e, d) && View(d') == s;
  }

  lemma BackOrder(e: Pair, d: Disk, s: Persistent)
    requires Framed(EnvOf(e, d), View(d), s) && e.a.key != e.b.key && OrderMatters(e, Back(d, s))
    ensures OrderMatters(e, d)
  {
    var p, p' := d.store.parents[e.id], s.store.parents[e.id];
    MinusBoth(p.children, e.a.key, e.b.key);
    MinusBoth(p'.children, e.a.key, e.b.key);
    forall k | k != e.a.key && k in d.store.children && NamesDirectory(d.store.children[k], e.id, e.home)
      ensures k in s.store.children && NamesDirectory(s.store.children[k], e.id, e.home) { }
  }

  lemma WorkingUnlocked(e: Pair, d: Disk)
    requires Working(e, d)
    ensures var f := SettledTarget(EnvOf(e, d), View(d)); f.parent.Some? ==> f.parent.value.lockId == NO_LOCK
  {
    TargetForm(e, d);
    if e.id in d.store.parents && d.store.parents[e.id].lockId != NO_LOCK { WorkingLock(e, d); }
    var f := SettledTarget(EnvOf(e, d), View(d));
    assert Lifted(f, d.linkedB).parent == f.parent;
  }

  /** No goal of the first deletion leaves a lock on the parent. */
  lemma TargetUnlocked(e: Pair, d: Disk)
    requires Active(e, d)
    ensures var f := Target(EnvOf(e, d), View(d)); f.parent.Some? ==> f.parent.value.lockId == NO_LOCK
  {
    var d1 := Prepared(e, d);
    PreparedIsMine(e, d);
    SettledWorks(e, d1);
    SettledFacts(e, d1);
    WorkingUnlocked(e, Settle(e, d1));
  }

  lemma GoneTarget(env: Env, s: Persistent)
    requires env.key !in s.store.children
    ensures Target(env, s) == Summary(env, s)
  {
  }

  lemma TurnKeepsTarget(e: Pair, d: Disk, moves: seq<Move>)
    requires Sound2(e, d) && !OwnsParent(d.store, e.id, e.b.key)
    ensures var s := View(FirstTurn(e, d, moves));
            && Sound2(e, FirstTurn(e, d, moves)) && !OwnsParent(s.store, e.id, e.b.key)
            && Framed(EnvOf(e, d), View(d), s) && Target(EnvOf(e, d), s) == Target(EnvOf(e, d), View(d))
  {
    var env, m := EnvOf(e, d), Machine(View(d), Begin);
    LocalOf(e, d);
    PlayAllKeeps(env, m, moves);
    TurnFrame(env, m, moves);
    BackSound(e, d, PlayAll(env, m, moves).disk);
  }

  lemma ActiveTurn(e: Pair, d: Disk, moves: seq<Move>)
    requires Active(e, d) && !OrderMatters(e, d)
    ensures var d' := FirstTurn(e, d, moves);
            Sound2(e, d') && JointEnd(e, d') == JointEnd(e, d) && !OrderMatters(e, d')
  {
    var d' := FirstTurn(e, d, moves);
    TurnKeepsTarget(e, d, moves);
    if OrderMatters(e, d') { BackOrder(e, d, View(d')); }
    Factor(e, d);
    if Shared(d'.store, e.id, e.a.key) {
      Factor(e, d');
    } else {
      TargetUnlocked(e, d);
      GoneTarget(EnvOf(e, d'), View(d'));
      FactorGone(e, d');
    }
  }

  // ---- every run of turns ----

  lemma FirstTurnKeeps(e: Pair, d: Disk, moves: seq<Move>)
    requires Sound2(e, d) && !OrderMatters(e, d)
    ensures var d' := FirstTurn(e, d, moves);
            Sound2(e, d') && JointEnd(e, d') == JointEnd(e, d) && !OrderMatters(e, d')
  {
    if Passive(e, d) { PassiveTurn(e, d, moves); } else { ActiveTurn(e, d, moves); }
  }

  lemma TurnKeeps(e: Pair, d: Disk, t: Turn)
    requires Sound2(e, d) && !OrderMatters(e, d)
    ensures var d' := TakeTurn(e, d, t); Sound2(e, d') && JointEnd(e, d') == JointEnd(e, d) && !OrderMatters(e, d')
  {
    if t.second {
      SwapKeepsSound(e, d);
      SwapNeeded(e, d);
      SwapJoint(e, d);
      FirstTurnKeeps(Swapped(e), Other(d), t.moves);
      var d' := FirstTurn(Swapped(e), Other(d), t.moves);
      assert Swapped(Swapped(e)) == e;
      SwapKeepsSound(Swapped(e), d');
      SwapNeeded(Swapped(e), d');
      SwapJoint(Swapped(e), d');
    } else {
      FirstTurnKeeps(e, d, t.moves);
    }
  }

  lemma {:induction false} TurnsKeep(e: Pair, d: Disk, turns: seq<Turn>)
    requires Sound2(e, d) && !OrderMatters(e, d)
    ensures var d' := TakeTurns(e, d, turns);
            Sound2(e, d') && JointEnd(e, d') == JointEnd(e, d) && !OrderMatters(e, d')
  {
    if turns != [] {
      TurnsKeep(e, d, turns[..|turns| - 1]);
      TurnKeeps(e, TakeTurns(e, d, turns[..|turns| - 1]), turns[|turns| - 1]);
    }
  }

  predicate BothGone(e: Pair, d: Disk) {
    e.a.key !in d.store.children && e.b.key !in d.store.children
  }

  /**
   However the two deletions take turns, stop and run again: once both models' records are gone, all
   other records and files are those of the common goal, which the first state determines.
   */
  lemma TurnsEndTheSame(e: Pair, d: Disk, turns: seq<Turn>)
    requires Sound2(e, d) && !OrderMatters(e, d) && BothGone(e, TakeTurns(e, d, turns))
    ensures Outcome2(e, TakeTurns(e, d, turns)) == JointEnd(e, d)
  {
    TurnsKeep(e, d, turns);
  }

  // ---- both deletions can always be finished ----

  /** A turn that is not stopped. */
  const WHOLE := Uninterrupted(9)

  lemma {:induction false} FinishesWithin(env: Env, m: Machine, n: nat)
    requires Valid(env, m) && Distance(env, m) <= n
    ensures PlayAll(env, m, Uninterrupted(n)).point == Finished
  {
    if n == Distance(env, m) {
      LeftAloneItFinishes(env, m);
    } else {
      FinishesWithin(env, m, n - 1);
      assert Uninterrupted(n)[..n - 1] == Uninterrupted(n - 1);
    }
  }

  lemma WholeTurn(e: Pair, d: Disk)
    requires Sound2(e, d) && !OwnsParent(d.store, e.id, e.b.key)
    ensures var d' := FirstTurn(e, d, WHOLE);
            && Sound2(e, d') && e.a.key !in d'.store.children && !OwnsParent(d'.store, e.id, e.b.key)
            && Framed(EnvOf(e, d), View(d), View(d')) && Summary(EnvOf(e, d), View(d')) == Target(EnvOf(e, d), View(d))
  {
    var env, m := EnvOf(e, d), Machine(View(d), Begin);
    TurnKeepsTarget(e, d, WHOLE);
    LocalOf(e, d);
    FinishesWithin(env, m, 9);
    PlayAllKeeps(env, m, WHOLE);
    GoneTarget(env, PlayAll(env, m, WHOLE).disk);
  }

  /** The same for either of the two. */
  lemma WholeTurnOf(e: Pair, d: Disk, second: bool)
    requires Sound2(e, d) && !OwnsParent(d.store, e.id, if second then e.a.key else e.b.key)
    ensures var d' := TakeTurn(e, d, Turn(second, WHOLE));
            var mine, theirs := if second then e.b.key else e.a.key, if second then e.a.key else e.b.key;
            && Sound2(e, d') && mine !in d'.store.children && !OwnsParent(d'.store, e.id, theirs)
            && (theirs in d'.store.children <==> theirs in d.store.children)
  {
    if second {
      SwapKeepsSound(e, d);
      WholeTurn(Swapped(e), Other(d));
      SwapKeepsSound(Swapped(e), FirstTurn(Swapped(e), Other(d), WHOLE));
    } else {
      WholeTurn(e, d);
    }
  }

  function BothTurns(second: bool): seq<Turn> {
    [Turn(second, WHOLE), Turn(!second, WHOLE)]
  }

  lemma TwoTurns(e: Pair, d: Disk, t: Turn, u: Turn)
    ensures TakeTurns(e, d, [t, u]) == TakeTurn(e, TakeTurn(e, d, t), u)
  {
    assert [t, u][..1] == [t] && [t][..0] == [];
    assert TakeTurns(e, d, [t]) == TakeTurn(e, d, t);
  }

  /** From any state one turn of each finishes both deletions, whoever owns the parent going first. */
  lemma BothCanFinish(e: Pair, d: Disk, second: bool)
    requires Sound2(e, d) && !OwnsParent(d.store, e.id, if second then e.a.key else e.b.key)
    ensures BothGone(e, TakeTurns(e, d, BothTurns(second)))
  {
    TwoTurns(e, d, Turn(second, WHOLE), Turn(!second, WHOLE));
    WholeTurnOf(e, d, second);
    WholeTurnOf(e, TakeTurn(e, d, Turn(second, WHOLE)), !second);
  }

  lemma FirstTurnSound(e: Pair, d: Disk, moves: seq<Move>)
    requires Sound2(e, d)
    ensures Sound2(e, FirstTurn(e, d, moves))
  {
    if Passive(e, d) { PassiveTurn(e, d, moves); } else { TurnKeepsTarget(e, d, moves); }
  }

  lemma {:induction false} TurnsSound(e: Pair, d: Disk, turns: seq<Turn>)
    requires Sound2(e, d)
    ensures Sound2(e, TakeTurns(e, d, turns))
  {
    if turns != [] {
      var t, mid := turns[|turns| - 1], TakeTurns(e, d, turns[..|turns| - 1]);
      TurnsSound(e, d, turns[..|turns| - 1]);
      if t.second {
        SwapKeepsSound(e, mid);
        FirstTurnSound(Swapped(e), Other(mid), t.moves);
        SwapKeepsSound(Swapped(e), FirstTurn(Swapped(e), Other(mid), t.moves));
      } else {
        FirstTurnSound(e, mid, t.moves);
      }
    }
  }

  /** However far they got and wherever they stopped, two further turns finish both. */
  lemma StoppedTurnsCanFinish(e: Pair, d: Disk, turns: seq<Turn>)
    requires Sound2(e, d)
    ensures var d' := TakeTurns(e, d, turns);
            BothGone(e, TakeTurns(e, d', BothTurns(OwnsParent(d'.store, e.id, e.b.key))))
  {
    TurnsSound(e, d, turns);
    var d' := TakeTurns(e, d, turns);
    BothCanFinish(e, d', OwnsParent(d'.store, e.id, e.b.key));
  }

  // ---- the order does matter where it is said to ----

  /** Two runs that finish both deletions and leave other records or files. */
  predicate EndsDiffer(e: Pair, d: Disk, t: seq<Turn>, u: seq<Turn>) {
    && BothGone(e, TakeTurns(e, d, t)) && BothGone(e, TakeTurns(e, d, u))
    && Outcome2(e, TakeTurns(e, d, t)) != Outcome2(e, TakeTurns(e, d, u))
  }

  /** Nobody keeps an unused directory: it goes. */
  lemma GoesAtTheEnd(e: Pair, d: Disk)
    requires Sound2(e, d) && !Stays(e, d) && (Shared(d.store, e.id, e.a.key) || Shared(d.store, e.id, e.b.key))
    requires e.id in d.store.parents ==> Without2(e, d.store.parents[e.id]).children == map[]
    ensures JointEnd(e, d).parent.None?
  {
    SettledFacts(e, d);
    SettledNeeded(e, d);
  }

  /** A model of a kept path that is deleted alone leaves the record of its directory. */
  lemma StaysAtTheEnd(e: Pair, d: Disk)
    requires Sound2(e, d) && Shared(d.store, e.id, e.a.key) && e.b.key !in d.store.children && e.a.kept
    requires e.id in d.store.parents
    ensures JointEnd(e, d).parent.Some?
  {
    SettledFacts(e, d);
  }

  /** The kept model goes first: the other then removes the directory. */
  lemma KeptFirst(e: Pair, d: Disk)
    requires Sound2(e, d) && OrderMatters(e, d) && LosesOut(e.a, e.b, d.linkedA, d.store)
    requires !OwnsParent(d.store, e.id, e.b.key)
    ensures var d' := TakeTurns(e, d, BothTurns(false)); BothGone(e, d') && Outcome2(e, d').parent.None?
  {
    var mid := FirstTurn(e, d, WHOLE);
    WholeTurn(e, d);
    BothCanFinish(e, d, false);
    TwoTurns(e, d, Turn(false, WHOLE), Turn(true, WHOLE));
    KeptFirstLeaves(e, d, View(mid));
    GoesAtTheEnd(e, mid);
    assert [Turn(true, WHOLE)][..0] == [];
    TurnsEndTheSame(e, mid, [Turn(true, WHOLE)]);
  }

  lemma KeptFirstLeaves(e: Pair, d: Disk, s: Persistent)
    requires OrderMatters(e, d) && LosesOut(e.a, e.b, d.linkedA, d.store) && e.a.key != e.b.key
    requires Framed(EnvOf(e, d), View(d), s) && e.a.key !in s.store.children
    ensures var mid := Back(d, s);
            && Shared(mid.store, e.id, e.b.key) && !Stays(e, mid)
            && (e.id in mid.store.parents ==> Without2(e, mid.store.parents[e.id]).children == map[])
  {
    if e.id in s.store.parents {
      MinusBoth(d.store.parents[e.id].children, e.a.key, e.b.key);
      MinusBoth(s.store.parents[e.id].children, e.a.key, e.b.key);
    }
    forall k | k != e.a.key && k in s.store.children && NamesDirectory(s.store.children[k], e.id, e.home)
      ensures k in d.store.children && NamesDirectory(d.store.children[k], e.id, e.home) { }
  }

  /** The other model's deletion owns the parent: the kept one's turn only turns its intent into a receipt. */
  lemma KeptWaits(e: Pair, d: Disk)
    requires Sound2(e, d) && OrderMatters(e, d) && LosesOut(e.a, e.b, d.linkedA, d.store)
    requires OwnsParent(d.store, e.id, e.b.key)
    ensures var d' := TakeTurns(e, d, [Turn(false, [Go])] + BothTurns(true));
            BothGone(e, d') && Outcome2(e, d').parent.None?
  {
    var mid := FirstTurn(e, d, [Go]);
    PassiveTurn(e, d, [Go]);
    IntentGoesFirst(e, d);
    GoesAtTheEnd(e, d);
    BothCanFinish(e, mid, true);
    TurnsEndTheSame(e, mid, BothTurns(true));
    TurnsAfter(e, d, Turn(false, [Go]), BothTurns(true));
  }

  lemma IntentGoesFirst(e: Pair, d: Disk)
    requires Sound2(e, d) && OwnsParent(d.store, e.id, e.b.key) && Shared(d.store, e.id, e.a.key)
    requires !HasReceipt(d.store, e.a.key)
    ensures HasReceipt(FirstTurn(e, d, [Go]).store, e.a.key)
  {
    OwnedByOther(e, d);
    SoundFacts(e, d);
    var env, m := EnvOf(e, d), Machine(View(d), Begin);
    ConvertedHasReceipt(env, View(d));
    assert [Go][..0] == [];
    assert PlayAll(env, m, [Go]) == BeginStep(env, View(d));
  }

  lemma ConvertedHasReceipt(env: Env, s: Persistent)
    requires HasIntent(env, s) && ChildOk(env, s, s.store.children[env.key]) && OneRole(s.store.children[env.key])
    requires env.home.identity == env.id && env.path != ""
    ensures HasReceipt(BeginStep(env, s).disk.store, env.key)
  {
  }

  lemma {:induction false} TurnsAfter(e: Pair, d: Disk, t: Turn, turns: seq<Turn>)
    ensures TakeTurns(e, d, [t] + turns) == TakeTurns(e, TakeTurn(e, d, t), turns)
  {
    var all := [t] + turns;
    if turns == [] {
      assert all == [t] && [t][..0] == [];
    } else {
      TurnsAfter(e, d, t, turns[..|turns| - 1]);
      assert all[..|all| - 1] == [t] + turns[..|turns| - 1];
    }
  }

  /** The model that is not kept goes first: the kept one is still recorded and keeps the directory. */
  lemma KeptLast(e: Pair, d: Disk)
    requires Sound2(e, d) && OrderMatters(e, d) && LosesOut(e.a, e.b, d.linkedA, d.store)
    ensures var d' := TakeTurns(e, d, BothTurns(true)); BothGone(e, d') && Outcome2(e, d').parent.Some?
  {
    var mid := TakeTurn(e, d, Turn(true, WHOLE));
    SwapKeepsSound(e, d);
    WholeTurn(Swapped(e), Other(d));
    WholeTurnOf(e, d, true);
    BothCanFinish(e, d, true);
    TwoTurns(e, d, Turn(true, WHOLE), Turn(false, WHOLE));
    KeptIsLeft(Swapped(e), Other(d));
    StaysAtTheEnd(e, mid);
    assert [Turn(false, WHOLE)][..0] == [];
    TurnsEndTheSame(e, mid, [Turn(false, WHOLE)]);
  }

  /** The first deletion leaves the record while the second model has a reference or an intent. */
  lemma KeptIsLeft(e: Pair, d: Disk)
    requires Active(e, d) && e.id in d.store.parents && Shared(d.store, e.id, e.b.key) && !HasReceipt(d.store, e.b.key)
    ensures Target(EnvOf(e, d), View(d)).parent.Some?
  {
    var d1 := Prepared(e, d);
    PreparedIsMine(e, d);
    SettledWorks(e, d1);
    SettledFacts(e, d1);
    KeptIsLeftSettled(e, Settle(e, d1));
  }

  lemma KeptIsLeftSettled(e: Pair, d: Disk)
    requires Working(e, d) && e.id in d.store.parents && Shared(d.store, e.id, e.b.key) && !HasReceipt(d.store, e.b.key)
    ensures SettledTarget(EnvOf(e, d), View(d)).parent.Some?
  {
    TargetForm(e, d);
    SoundFacts(e, d);
    var f := SettledTarget(EnvOf(e, d), View(d));
    assert Lifted(f, d.linkedB).parent == f.parent;
    if d.store.children[e.b.key].pendingDownload.Some? {
      IntentsSplit(e, d);
    } else {
      assert Names(d.store, e.id, e.b.key);
      assert e.b.key in WithoutKey(d.store.parents[e.id], e.a.key).children;
    }
  }

  lemma TwoEnds(e: Pair, d: Disk) returns (t: seq<Turn>, u: seq<Turn>)
    requires Sound2(e, d) && OrderMatters(e, d) && LosesOut(e.a, e.b, d.linkedA, d.store)
    ensures EndsDiffer(e, d, t, u)
  {
    KeptLast(e, d);
    t := BothTurns(true);
    if OwnsParent(d.store, e.id, e.b.key) {
      KeptWaits(e, d);
      u := [Turn(false, [Go])] + BothTurns(true);
    } else {
      KeptFirst(e, d);
      u := BothTurns(false);
    }
  }

  function Flipped(turns: seq<Turn>): seq<Turn> {
    seq(|turns|, i requires 0 <= i < |turns| => turns[i].(second := !turns[i].second))
  }

  lemma {:induction false} FlippedTurns(e: Pair, d: Disk, turns: seq<Turn>)
    ensures TakeTurns(e, d, Flipped(turns)) == Other(TakeTurns(Swapped(e), Other(d), turns))
  {
    assert Swapped(Swapped(e)) == e && Other(Other(d)) == d;
    if turns != [] {
      var front := turns[..|turns| - 1];
      FlippedTurns(e, d, front);
      assert Flipped(turns)[..|turns| - 1] == Flipped(front);
      var mid := TakeTurns(Swapped(e), Other(d), front);
      assert Other(Other(mid)) == mid;
    }
  }

  lemma SwapOutcome(e: Pair, d: Disk)
    ensures Outcome2(Swapped(e), Other(d)) == Mirrored(Outcome2(e, d))
  {
    SameSets(e);
  }

  /** Where the order is said to matter, it does. */
  lemma OrderDecides(e: Pair, d: Disk) returns (t: seq<Turn>, u: seq<Turn>)
    requires Sound2(e, d) && OrderMatters(e, d)
    ensures EndsDiffer(e, d, t, u)
  {
    if LosesOut(e.a, e.b, d.linkedA, d.store) {
      t, u := TwoEnds(e, d);
    } else {
      SwapKeepsSound(e, d);
      SwapNeeded(e, d);
      var t', u' := TwoEnds(Swapped(e), Other(d));
      t, u := Flipped(t'), Flipped(u');
      FlippedTurns(e, d, t');
      FlippedTurns(e, d, u');
      SwapOutcome(e, TakeTurns(e, d, t));
      SwapOutcome(e, TakeTurns(e, d, u));
    }
  }

  // ---- where the two may start ----

  predicate Attached(e: Pair, s: Store, m: Member) {
    && m.path != "" && m.key in s.children && s.children[m.key].parentKey == Some(e.id)
    && e.id in s.parents && m.key in s.parents[e.id].children && s.parents[e.id].children[m.key] == m.path
  }

  /** Any two models attached under different paths to a parent nobody holds. */
  lemma AttachedPairIsSound(e: Pair, d: Disk)
    requires Inv(World(d.store, d.next)) && e.a.key != e.b.key && e.a.path != e.b.path
    requires Attached(e, d.store, e.a) && Attached(e, d.store, e.b)
    requires d.store.parents[e.id].lockId == NO_LOCK && d.store.parents[e.id].localPath == e.home
    requires e.home.identity == e.id
    requires d.marker.Wrote? ==> d.marker.lock < d.next
    requires forall k :: HasReceipt(d.store, k) ==> d.store.children[k].pendingDeletion.value.parentLock < d.next
    ensures Sound2(e, d)
  {
    SoundRoles(d.store, d.next, e.a.key);
    SoundRoles(d.store, d.next, e.b.key);
  }

  lemma SoundRoles(s: Store, next: LockId, key: ModelKey)
    requires Inv(World(s, next)) && key in s.children
    ensures OneRole(s.children[key])
  {
  }
}
