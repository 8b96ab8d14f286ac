/**
 Every verdict of the task coordinator, from the events and answers before it alone: which tasks were
 given attempts, and which of those have finished.
 */
module TaskVerdicts {
  import opened HfTypes
  import opened TaskTracker
  import opened TaskRuns

  /** The attempt that this event's caller gets, if any. */
  function Given(c: Coordinator, e: Event): Option<Ticket> {
    match e
    case BeginDownload(uid, sequence) =>
      if Verdict(c, e) == Proceed then Some(Ticket(c.issued, uid, sequence)) else None
    case BeginDelete(uid, sequence) =>
      if uid != "" && sequence != 0 && ReservesBarrier(StateOf(c.models, uid), sequence)
      then Some(Ticket(c.issued, uid, sequence)) else None
    case BeginLegacy(uid, _) => Some(Ticket(c.issued, uid, 0))
    case _ => None
  }

  // ---- the history so far ----

  predicate InRun(run: Run, i: nat) {
    |run.states| == |run.events| + 1 && i < |run.events|
  }

  /** Event `i` is a task of this model that was given an attempt. */
  predicate Admitted(run: Run, i: nat, uid: string)
    requires InRun(run, i)
  {
    UidOf(run.events[i]) == uid && Given(run.states[i], run.events[i]).Some?
  }

  predicate Downloads(run: Run, i: nat, uid: string)
    requires InRun(run, i)
  {
    run.events[i].BeginDownload? && Admitted(run, i, uid)
  }

  predicate Deletes(run: Run, i: nat, uid: string)
    requires InRun(run, i)
  {
    run.events[i].BeginDelete? && Admitted(run, i, uid)
  }

  predicate IsLegacy(run: Run, i: nat, uid: string)
    requires InRun(run, i)
  {
    run.events[i].BeginLegacy? && run.events[i].uid == uid
  }

  /** The attempt given at event `i`; every event uses up one number. */
  function TicketOf(run: Run, i: nat): Ticket
    requires InRun(run, i) && (run.events[i].BeginDownload? || run.events[i].BeginDelete? || run.events[i].BeginLegacy?)
  {
    Ticket(i, run.events[i].uid, if run.events[i].BeginLegacy? then 0 else run.events[i].sequence)
  }

  /** The caller of event `i` says at `j` that its attempt has ended. */
  predicate Ends(run: Run, i: nat, j: nat)
    requires InRun(run, i) && InRun(run, j)
  {
    match run.events[i]
    case BeginDownload(_, _) => run.events[j] == FinishDownload(TicketOf(run, i))
    case BeginDelete(_, _) => run.events[j].FinishDelete? && run.events[j].attempt == TicketOf(run, i)
    case BeginLegacy(_, _) => run.events[j] == FinishLegacy(TicketOf(run, i))
    case _ => false
  }

  /** Its attempt has ended before event `n`. */
  predicate Ended(run: Run, i: nat, n: nat)
    requires |run.states| == |run.events| + 1 && i < n <= |run.events|
  {
    exists j :: i < j < n && Ends(run, i, j)
  }

  /** The delete's attempt ended for good: the first time it ended, its barrier was not kept. */
  predicate Released(run: Run, i: nat, n: nat)
    requires |run.states| == |run.events| + 1 && i < n <= |run.events|
  {
    exists j :: i < j < n && Ends(run, i, j) && run.events[j].FinishDelete? && !run.events[j].keepBarrier
      && !Ended(run, i, j)
  }

  /** The last delete given an attempt before `n`, and its barrier has not been released. */
  predicate Stands(run: Run, i: nat, n: nat, uid: string)
    requires |run.states| == |run.events| + 1 && i < n <= |run.events|
  {
    Deletes(run, i, uid) && !Released(run, i, n) && forall k :: i < k < n ==> !Deletes(run, k, uid)
  }

  // ---- one event later ----

  lemma EndedLater(run: Run, i: nat, n: nat)
    requires |run.states| == |run.events| + 1 && i < n < |run.events|
    ensures Ended(run, i, n + 1) <==> Ended(run, i, n) || Ends(run, i, n)
  {
  }

  lemma ReleasedLater(run: Run, i: nat, n: nat)
    requires |run.states| == |run.events| + 1 && i < n < |run.events|
    ensures Released(run, i, n + 1) <==>
              Released(run, i, n) || (Ends(run, i, n) && run.events[n].FinishDelete? && !run.events[n].keepBarrier
                                      && !Ended(run, i, n))
  {
  }

  lemma FreshlyGiven(run: Run, n: nat)
    requires |run.states| == |run.events| + 1 && n < |run.events|
    ensures !Ended(run, n, n + 1) && !Released(run, n, n + 1)
  {
  }

  lemma OnlyItsOwnModel(run: Run, i: nat, n: nat)
    requires |run.states| == |run.events| + 1 && i < n < |run.events| && Ends(run, i, n)
    ensures UidOf(run.events[n]) == UidOf(run.events[i])
  {
  }

  /** The model after event `n`, and the ticket it may have handed out. */
  lemma EventMoves(run: Run, n: nat, uid: string)
    requires run.Valid() && n < |run.events|
    ensures run.At(n + 1, uid) == if uid == UidOf(run.events[n]) then Moved(run.At(n, uid), run.events[n], n)
            else run.At(n, uid)
    ensures run.states[n].issued == n && Good(run.At(n, uid), uid, n)
  {
    RunMoves(run, n, uid);
    IssuedCounts(run, n);
  }

  // ---- the download slot and its fence ----

  predicate IsDownloading(run: Run, i: nat, n: nat, uid: string)
    requires |run.states| == |run.events| + 1 && i < n <= |run.events|
  {
    Downloads(run, i, uid) && !Ended(run, i, n)
  }

  ghost predicate SlotTold(run: Run, n: nat, uid: string)
    requires |run.states| == |run.events| + 1 && n <= |run.events|
  {
    forall t :: run.At(n, uid).download == Some(t) <==>
                exists i :: 0 <= i < n && IsDownloading(run, i, n, uid) && t == TicketOf(run, i)
  }

  lemma SlotMoves(run: Run, n: nat, uid: string)
    requires run.Valid() && n < |run.events| && SlotTold(run, n, uid)
    ensures SlotTold(run, n + 1, uid)
  {
    EventMoves(run, n, uid);
    FreshlyGiven(run, n);
    var s, s' := run.At(n, uid), run.At(n + 1, uid);
    forall i | 0 <= i < n
      ensures IsDownloading(run, i, n + 1, uid) <==> IsDownloading(run, i, n, uid) && !Ends(run, i, n)
    {
      EndedLater(run, i, n);
    }
    if Downloads(run, n, uid) {
      assert s.download.None? && s'.download == Some(TicketOf(run, n)) && IsDownloading(run, n, n + 1, uid);
      assert forall i :: 0 <= i < n && IsDownloading(run, i, n, uid) ==> s.download == Some(TicketOf(run, i));
    } else {
      forall i | 0 <= i < n && IsDownloading(run, i, n, uid)
        ensures s.download == Some(TicketOf(run, i)) && s'.download == if Ends(run, i, n) then None else s.download
      {
        if Ends(run, i, n) { OnlyItsOwnModel(run, i, n); }
      }
    }
  }

  lemma {:induction false} DownloadSlot(run: Run, n: nat, uid: string)
    requires run.Valid() && n <= |run.events|
    ensures SlotTold(run, n, uid)
  {
    if n > 0 {
      DownloadSlot(run, n - 1, uid);
      SlotMoves(run, n - 1, uid);
    }
  }

  lemma {:induction false} DownloadFence(run: Run, n: nat, uid: string)
    requires run.Valid() && n <= |run.events|
    ensures forall i :: 0 <= i < n && Downloads(run, i, uid) ==> run.events[i].sequence <= run.At(n, uid).newestDownload
    ensures run.At(n, uid).newestDownload != 0 ==>
              exists i :: 0 <= i < n && Downloads(run, i, uid)
                && run.events[i].sequence == run.At(n, uid).newestDownload
  {
    if n > 0 {
      DownloadFence(run, n - 1, uid);
      EventMoves(run, n - 1, uid);
      assert Downloads(run, n - 1, uid) ==> run.events[n - 1].sequence == run.At(n, uid).newestDownload;
    }
  }

  // ---- unsequenced work ----

  predicate IsLegacyAt(run: Run, i: nat, n: nat, uid: string)
    requires |run.states| == |run.events| + 1 && i < n <= |run.events|
  {
    IsLegacy(run, i, uid) && !Ended(run, i, n)
  }

  ghost predicate LegacyTold(run: Run, n: nat, uid: string)
    requires |run.states| == |run.events| + 1 && n <= |run.events|
  {
    forall t :: t in run.At(n, uid).legacy <==>
                exists i :: 0 <= i < n && IsLegacyAt(run, i, n, uid) && t == TicketOf(run, i)
  }

  lemma LegacyLater(run: Run, i: nat, n: nat, uid: string)
    requires |run.states| == |run.events| + 1 && i < n < |run.events| && IsLegacyAt(run, i, n, uid)
    ensures IsLegacyAt(run, i, n + 1, uid) <==> run.events[n] != FinishLegacy(TicketOf(run, i))
  {
    EndedLater(run, i, n);
  }

  lemma LegacyStays(run: Run, n: nat, uid: string, t: Ticket) returns (i: nat)
    requires run.Valid() && n < |run.events| && LegacyTold(run, n, uid) && t in run.At(n + 1, uid).legacy
    ensures i < n + 1 && IsLegacyAt(run, i, n + 1, uid) && t == TicketOf(run, i)
  {
    EventMoves(run, n, uid);
    if t in run.At(n, uid).legacy {
      i :| 0 <= i < n && IsLegacyAt(run, i, n, uid) && t == TicketOf(run, i);
      LegacyLater(run, i, n, uid);
    } else {
      i := n;
      FreshlyGiven(run, n);
    }
  }

  lemma LegacyIsThere(run: Run, n: nat, uid: string, i: nat)
    requires run.Valid() && n < |run.events| && LegacyTold(run, n, uid)
    requires i < n + 1 && IsLegacyAt(run, i, n + 1, uid)
    ensures TicketOf(run, i) in run.At(n + 1, uid).legacy
  {
    EventMoves(run, n, uid);
    if i < n {
      EndedLater(run, i, n);
      assert IsLegacyAt(run, i, n, uid);
    }
  }

  lemma LegacyMoves(run: Run, n: nat, uid: string)
    requires run.Valid() && n < |run.events| && LegacyTold(run, n, uid)
    ensures LegacyTold(run, n + 1, uid)
  {
    var m := n + 1;
    forall t ensures t in run.At(m, uid).legacy <==>
                     exists i :: 0 <= i < m && IsLegacyAt(run, i, m, uid) && t == TicketOf(run, i)
    {
      if t in run.At(m, uid).legacy { var i := LegacyStays(run, n, uid, t); }
      if i :| 0 <= i < m && IsLegacyAt(run, i, m, uid) && t == TicketOf(run, i) { LegacyIsThere(run, n, uid, i); }
    }
  }

  lemma {:induction false} LegacyWork(run: Run, n: nat, uid: string)
    requires run.Valid() && n <= |run.events|
    ensures LegacyTold(run, n, uid)
  {
    if n > 0 {
      LegacyWork(run, n - 1, uid);
      LegacyMoves(run, n - 1, uid);
    }
  }

  /** The last unsequenced task before `n` that can be cancelled. */
  predicate LastCancellable(run: Run, i: nat, n: nat, uid: string)
    requires |run.states| == |run.events| + 1 && i < n <= |run.events|
  {
    IsLegacy(run, i, uid) && run.events[i].cancellable
      && forall k :: i < k < n && IsLegacy(run, k, uid) ==> !run.events[k].cancellable
  }

  /** Whom a delete cancels if no download holds the slot: the last one that can be, unless it has ended. */
  lemma {:induction false} LatestLegacyIff(run: Run, n: nat, uid: string, t: Ticket)
    requires run.Valid() && n <= |run.events|
    ensures run.At(n, uid).latestLegacy == Some(t) <==>
              exists i :: 0 <= i < n && LastCancellable(run, i, n, uid) && !Ended(run, i, n) && t == TicketOf(run, i)
  {
    if n > 0 {
      var m := n - 1;
      LatestLegacyIff(run, m, uid, t);
      EventMoves(run, m, uid);
      FreshlyGiven(run, m);
      forall i | 0 <= i < m && IsLegacy(run, i, uid)
        ensures LastCancellable(run, i, n, uid) <==>
                  LastCancellable(run, i, m, uid) && !(IsLegacy(run, m, uid) && run.events[m].cancellable)
        ensures Ended(run, i, n) <==> Ended(run, i, m) || run.events[m] == FinishLegacy(TicketOf(run, i))
      {
        EndedLater(run, i, m);
      }
    }
  }

  // ---- the delete barrier and its fences ----

  ghost predicate BarrierTold(run: Run, n: nat, uid: string)
    requires |run.states| == |run.events| + 1 && n <= |run.events|
  {
    var s := run.At(n, uid);
    && (s.deleteSequence == 0 ==> s.deleteAttempt.None? && forall i :: 0 <= i < n ==> !Stands(run, i, n, uid))
    && (s.deleteSequence != 0 ==> exists i :: 0 <= i < n && Stands(run, i, n, uid))
    && forall i :: 0 <= i < n && Stands(run, i, n, uid) ==>
         && s.deleteSequence == run.events[i].sequence
         && s.deleteAttempt == if Ended(run, i, n) then None else Some(TicketOf(run, i))
  }

  /** This event releases the barrier of the delete at `i`. */
  predicate Releases(run: Run, i: nat, n: nat)
    requires |run.states| == |run.events| + 1 && i < n < |run.events|
  {
    Ends(run, i, n) && run.events[n].FinishDelete? && !run.events[n].keepBarrier && !Ended(run, i, n)
  }

  lemma StandsLater(run: Run, i: nat, n: nat, uid: string)
    requires run.Valid() && i < n < |run.events|
    ensures Stands(run, i, n + 1, uid) <==> Stands(run, i, n, uid) && !Deletes(run, n, uid) && !Releases(run, i, n)
  {
    ReleasedLater(run, i, n);
  }

  /** What the model's barrier fields are while the delete at `i` stands. */
  predicate ShowsBarrier(run: Run, i: nat, n: nat, s: Model)
    requires |run.states| == |run.events| + 1 && i < n <= |run.events| && run.events[i].BeginDelete?
  {
    s.deleteSequence == run.events[i].sequence
      && s.deleteAttempt == if Ended(run, i, n) then None else Some(TicketOf(run, i))
  }

  lemma BarrierGiven(run: Run, n: nat, uid: string)
    requires run.Valid() && n < |run.events| && Deletes(run, n, uid)
    ensures BarrierTold(run, n + 1, uid)
  {
    EventMoves(run, n, uid);
    FreshlyGiven(run, n);
    var m := n + 1;
    assert Stands(run, n, m, uid);
    assert forall i :: 0 <= i < m && Stands(run, i, m, uid) ==> i == n;
  }

  lemma StandingMoves(run: Run, n: nat, uid: string, i: nat)
    requires run.Valid() && i < n < |run.events| && Stands(run, i, n, uid) && !Deletes(run, n, uid)
    requires ShowsBarrier(run, i, n, run.At(n, uid))
    ensures if Releases(run, i, n) then run.At(n + 1, uid).deleteSequence == 0 && run.At(n + 1, uid).deleteAttempt.None?
            else ShowsBarrier(run, i, n + 1, run.At(n + 1, uid))
  {
    EventMoves(run, n, uid);
    EndedLater(run, i, n);
    if Ends(run, i, n) { OnlyItsOwnModel(run, i, n); }
  }

  lemma BarrierStays(run: Run, n: nat, uid: string, i: nat)
    requires run.Valid() && i < n < |run.events| && BarrierTold(run, n, uid) && Stands(run, i, n, uid)
    requires !Deletes(run, n, uid)
    ensures BarrierTold(run, n + 1, uid)
  {
    StandingMoves(run, n, uid, i);
    var m := n + 1;
    forall k | 0 <= k < m ensures Stands(run, k, m, uid) <==> k == i && !Releases(run, i, n) {
      if k < n { StandsLater(run, k, n, uid); }
    }
    if Releases(run, i, n) {
      assert run.At(m, uid).deleteSequence == 0;
    } else {
      assert Stands(run, i, m, uid) && ShowsBarrier(run, i, m, run.At(m, uid)) && run.events[i].sequence != 0;
    }
  }

  lemma NoBarrierStays(run: Run, n: nat, uid: string)
    requires run.Valid() && n < |run.events| && BarrierTold(run, n, uid) && run.At(n, uid).deleteSequence == 0
    requires !Deletes(run, n, uid)
    ensures BarrierTold(run, n + 1, uid)
  {
    EventMoves(run, n, uid);
    var m := n + 1;
    forall k | 0 <= k < m ensures !Stands(run, k, m, uid) {
      if k < n { StandsLater(run, k, n, uid); }
    }
  }

  lemma BarrierMoves(run: Run, n: nat, uid: string)
    requires run.Valid() && n < |run.events| && BarrierTold(run, n, uid)
    ensures BarrierTold(run, n + 1, uid)
  {
    if Deletes(run, n, uid) {
      BarrierGiven(run, n, uid);
    } else if run.At(n, uid).deleteSequence == 0 {
      NoBarrierStays(run, n, uid);
    } else {
      var i :| 0 <= i < n && Stands(run, i, n, uid);
      BarrierStays(run, n, uid, i);
    }
  }

  lemma {:induction false} DeleteBarrier(run: Run, n: nat, uid: string)
    requires run.Valid() && n <= |run.events|
    ensures BarrierTold(run, n, uid)
  {
    if n > 0 {
      DeleteBarrier(run, n - 1, uid);
      BarrierMoves(run, n - 1, uid);
    }
  }

  lemma {:induction false} BarrierFence(run: Run, n: nat, uid: string)
    requires run.Valid() && n <= |run.events|
    ensures forall i :: 0 <= i < n && Deletes(run, i, uid) ==> run.events[i].sequence <= Barrier(run.At(n, uid))
    ensures Barrier(run.At(n, uid)) != 0 ==>
              exists i :: 0 <= i < n && Deletes(run, i, uid) && run.events[i].sequence == Barrier(run.At(n, uid))
  {
    if n > 0 {
      BarrierFence(run, n - 1, uid);
      EventMoves(run, n - 1, uid);
      if UidOf(run.events[n - 1]) == uid { MovedGood(run.At(n - 1, uid), run.events[n - 1], n - 1); }
      assert Deletes(run, n - 1, uid) ==> run.events[n - 1].sequence == Barrier(run.At(n, uid));
      assert !Deletes(run, n - 1, uid) ==> Barrier(run.At(n, uid)) == Barrier(run.At(n - 1, uid));
    }
  }

  predicate GoneFor(run: Run, i: nat, n: nat, uid: string)
    requires |run.states| == |run.events| + 1 && i < n <= |run.events|
  {
    Deletes(run, i, uid) && Released(run, i, n)
  }

  ghost predicate FinishedTold(run: Run, n: nat, uid: string)
    requires |run.states| == |run.events| + 1 && n <= |run.events|
  {
    var s := run.At(n, uid);
    && (forall i :: 0 <= i < n && GoneFor(run, i, n, uid) ==> run.events[i].sequence <= s.finishedDelete)
    && (s.finishedDelete != 0 ==>
          exists i :: 0 <= i < n && GoneFor(run, i, n, uid) && run.events[i].sequence == s.finishedDelete)
  }

  /** An attempt that has not ended holds the barrier. */
  lemma {:induction false} UnendedHolds(run: Run, i: nat, n: nat, uid: string)
    requires run.Valid() && i < n <= |run.events| && Deletes(run, i, uid) && !Ended(run, i, n)
    ensures run.At(n, uid).deleteAttempt == Some(TicketOf(run, i))
  {
    EventMoves(run, n - 1, uid);
    if i < n - 1 {
      EndedLater(run, i, n - 1);
      UnendedHolds(run, i, n - 1, uid);
    }
  }

  lemma ReleaserStands(run: Run, i: nat, n: nat, uid: string)
    requires run.Valid() && i < n < |run.events| && Deletes(run, i, uid) && Releases(run, i, n)
    ensures Stands(run, i, n, uid)
  {
    UnendedHolds(run, i, n, uid);
    DeleteBarrier(run, n, uid);
    EventMoves(run, n, uid);
    var k :| 0 <= k < n && Stands(run, k, n, uid);
    assert TicketOf(run, k) == TicketOf(run, i);
  }

  lemma FinishedChanges(run: Run, n: nat, uid: string) returns (i: nat)
    requires run.Valid() && n < |run.events| && run.At(n + 1, uid).finishedDelete != run.At(n, uid).finishedDelete
    ensures i < n && Deletes(run, i, uid) && Releases(run, i, n)
    ensures run.At(n + 1, uid).finishedDelete == run.events[i].sequence
  {
    EventMoves(run, n, uid);
    DeleteBarrier(run, n, uid);
    i :| 0 <= i < n && Stands(run, i, n, uid);
  }

  lemma ReleaseFinishes(run: Run, i: nat, n: nat, uid: string)
    requires run.Valid() && i < n < |run.events| && Deletes(run, i, uid) && Releases(run, i, n)
    ensures run.At(n + 1, uid).finishedDelete == run.events[i].sequence
  {
    UnendedHolds(run, i, n, uid);
    EventMoves(run, n, uid);
    OnlyItsOwnModel(run, i, n);
  }

  lemma FinishedMoves(run: Run, n: nat, uid: string)
    requires run.Valid() && n < |run.events| && FinishedTold(run, n, uid)
    ensures FinishedTold(run, n + 1, uid)
  {
    var m := n + 1;
    FreshlyGiven(run, n);
    FencesAreMonotone(run, n, m, uid);
    forall i | 0 <= i < m && GoneFor(run, i, m, uid) ensures run.events[i].sequence <= run.At(m, uid).finishedDelete {
      ReleasedLater(run, i, n);
      if !GoneFor(run, i, n, uid) { ReleaseFinishes(run, i, n, uid); }
    }
    if run.At(m, uid).finishedDelete != run.At(n, uid).finishedDelete {
      var i := FinishedChanges(run, n, uid);
      ReleasedLater(run, i, n);
      assert GoneFor(run, i, m, uid);
    } else if run.At(m, uid).finishedDelete != 0 {
      var i :| 0 <= i < n && GoneFor(run, i, n, uid) && run.events[i].sequence == run.At(n, uid).finishedDelete;
      ReleasedLater(run, i, n);
      assert GoneFor(run, i, m, uid);
    }
  }

  lemma {:induction false} FinishedFence(run: Run, n: nat, uid: string)
    requires run.Valid() && n <= |run.events|
    ensures FinishedTold(run, n, uid)
  {
    if n > 0 {
      FinishedFence(run, n - 1, uid);
      FinishedMoves(run, n - 1, uid);
    }
  }

  // ---- the verdicts ----

  /** Some delete at or after this sequence was given an attempt. */
  ghost predicate Deleted(run: Run, n: nat, uid: string, sequence: Sequence)
    requires |run.states| == |run.events| + 1 && n <= |run.events|
  {
    exists i :: 0 <= i < n && Deletes(run, i, uid) && sequence <= run.events[i].sequence
  }

  /** Some download after this sequence proceeded. */
  ghost predicate Outrun(run: Run, n: nat, uid: string, sequence: Sequence)
    requires |run.states| == |run.events| + 1 && n <= |run.events|
  {
    exists i :: 0 <= i < n && Downloads(run, i, uid) && sequence < run.events[i].sequence
  }

  /** A download or an unsequenced task that was given an attempt has not ended it. */
  ghost predicate AtWork(run: Run, n: nat, uid: string)
    requires |run.states| == |run.events| + 1 && n <= |run.events|
  {
    (exists i :: 0 <= i < n && IsDownloading(run, i, n, uid)) || (exists i :: 0 <= i < n && IsLegacyAt(run, i, n, uid))
  }

  ghost predicate BarrierUp(run: Run, n: nat, uid: string)
    requires |run.states| == |run.events| + 1 && n <= |run.events|
  {
    exists i :: 0 <= i < n && Stands(run, i, n, uid)
  }

  lemma WorkTold(run: Run, n: nat, uid: string)
    requires run.Valid() && n <= |run.events|
    ensures AtWork(run, n, uid) <==> run.At(n, uid).download.Some? || run.At(n, uid).legacy != {}
    ensures BarrierUp(run, n, uid) <==> run.At(n, uid).deleteSequence != 0
  {
    DownloadSlot(run, n, uid);
    LegacyWork(run, n, uid);
    DeleteBarrier(run, n, uid);
    var s := run.At(n, uid);
    if s.download.Some? { assert s.download == Some(s.download.value); }
    if s.legacy != {} { var t :| t in s.legacy; }
    if i :| 0 <= i < n && IsDownloading(run, i, n, uid) { assert s.download == Some(TicketOf(run, i)); }
    if i :| 0 <= i < n && IsLegacyAt(run, i, n, uid) { assert TicketOf(run, i) in s.legacy; }
  }

  lemma FencesTold(run: Run, n: nat, uid: string, sequence: Sequence)
    requires run.Valid() && n <= |run.events| && sequence != 0
    ensures Deleted(run, n, uid, sequence) <==> sequence <= Barrier(run.At(n, uid))
    ensures Outrun(run, n, uid, sequence) <==> sequence < run.At(n, uid).newestDownload
  {
    BarrierFence(run, n, uid);
    DownloadFence(run, n, uid);
  }

  /**
   A sequenced download is stale if and only if a delete at or after its sequence was given an attempt
   before, or a later download proceeded before. Otherwise it proceeds if and only if no barrier stands
   and nothing is at work, and waits if not.
   */
  lemma DownloadVerdictIff(run: Run, n: nat, uid: string, sequence: Sequence)
    requires run.Valid() && n <= |run.events| && uid != "" && sequence != 0
    ensures var v := Verdict(run.states[n], BeginDownload(uid, sequence));
            var stale := Deleted(run, n, uid, sequence) || Outrun(run, n, uid, sequence);
            && (v == Stale <==> stale)
            && (v == Proceed <==> !stale && !BarrierUp(run, n, uid) && !AtWork(run, n, uid))
  {
    FencesTold(run, n, uid, sequence);
    WorkTold(run, n, uid);
    RunGood(run, n);
    assert Good(run.At(n, uid), uid, run.states[n].issued);
  }

  /**
   Some download at or after this sequence proceeded, or a later delete was given an attempt, or one as
   late is over.
   */
  ghost predicate Overtaken(run: Run, n: nat, uid: string, sequence: Sequence)
    requires |run.states| == |run.events| + 1 && n <= |run.events|
  {
    || (exists i :: 0 <= i < n && Downloads(run, i, uid) && sequence <= run.events[i].sequence)
    || (exists i :: 0 <= i < n && Deletes(run, i, uid) && sequence < run.events[i].sequence)
    || (exists i :: 0 <= i < n && GoneFor(run, i, n, uid) && sequence <= run.events[i].sequence)
  }

  /** A barrier stands that this delete may not take over: of another sequence, or with its attempt still going on. */
  ghost predicate BarredBy(run: Run, n: nat, uid: string, sequence: Sequence)
    requires |run.states| == |run.events| + 1 && n <= |run.events|
  {
    exists i :: 0 <= i < n && Stands(run, i, n, uid) && (run.events[i].sequence != sequence || !Ended(run, i, n))
  }

  lemma OvertakenTold(run: Run, n: nat, uid: string, sequence: Sequence)
    requires run.Valid() && n <= |run.events| && sequence != 0
    ensures Overtaken(run, n, uid, sequence) <==> DeleteStale(run.At(n, uid), sequence)
  {
    BarrierFence(run, n, uid);
    DownloadFence(run, n, uid);
    FinishedFence(run, n, uid);
    RunGood(run, n);
    assert Good(run.At(n, uid), uid, run.states[n].issued);
  }

  lemma BarredTold(run: Run, n: nat, uid: string, sequence: Sequence)
    requires run.Valid() && n <= |run.events|
    ensures BarredBy(run, n, uid, sequence) <==> BarrierTaken(run.At(n, uid), sequence)
  {
    DeleteBarrier(run, n, uid);
  }

  /**
   A sequenced delete is stale if and only if it was overtaken. Otherwise it is given an attempt if and only
   if no other delete's barrier stands, and proceeds if and only if moreover nothing is at work.
   */
  lemma DeleteVerdictIff(run: Run, n: nat, uid: string, sequence: Sequence)
    requires run.Valid() && n <= |run.events| && uid != "" && sequence != 0
    ensures var e, stale := BeginDelete(uid, sequence), Overtaken(run, n, uid, sequence);
            var free := !stale && !BarredBy(run, n, uid, sequence);
            && (Verdict(run.states[n], e) == Stale <==> stale)
            && (Given(run.states[n], e).Some? <==> free)
            && (Verdict(run.states[n], e) == Proceed <==> free && !AtWork(run, n, uid))
  {
    OvertakenTold(run, n, uid, sequence);
    BarredTold(run, n, uid, sequence);
    WorkTold(run, n, uid);
  }
}
