/**
 Whole admission histories of the task coordinator. Attempts are numbered tickets: every admitted
 attempt is a new object, so no two of them are equal, even for retries of one sequence.
 */
module TaskRuns {
  import opened HfTypes
  import opened TaskTracker

  datatype Ticket = Ticket(id: nat, uid: string, sequence: Sequence)

  type Model = ModelState<Ticket, Ticket, Ticket>

  datatype Coordinator = Coordinator(models: map<string, Model>, issued: nat)

  datatype Event =
    | BeginDownload(uid: string, sequence: Sequence)
    | FinishDownload(attempt: Ticket)
    | BeginDelete(uid: string, sequence: Sequence)
    | FinishDelete(attempt: Ticket, keepBarrier: bool)
    | BeginLegacy(uid: string, cancellable: bool)
    | FinishLegacy(attempt: Ticket)

  function Verdict(c: Coordinator, e: Event): (r: StartResult)
  {
    match e
    case BeginDownload(uid, sequence) => if uid == "" || sequence == 0 then Stale
      else DownloadVerdict(StateOf(c.models, uid), sequence)
    case BeginDelete(uid, sequence) => if uid == "" || sequence == 0 then Stale
      else DeleteVerdict(StateOf(c.models, uid), sequence)
    case _ => Proceed
  }

  function UidOf(e: Event): string {
    match e
    case FinishDownload(attempt) => attempt.uid
    case FinishDelete(attempt, _) => attempt.uid
    case FinishLegacy(attempt) => attempt.uid
    case _ => e.uid
  }

  /** What an event makes of its own model, before a fully idle one is dropped. */
  function Moved(s: Model, e: Event, id: nat): Model {
    match e
    case BeginDownload(uid, sequence) => if uid == "" || sequence == 0 then s
      else AfterBeginDownload(s, sequence, Ticket(id, uid, sequence))
    case FinishDownload(attempt) => AfterFinishDownload(s, attempt)
    case BeginDelete(uid, sequence) => if uid == "" || sequence == 0 then s
      else AfterBeginDelete(s, sequence, Ticket(id, uid, sequence))
    case FinishDelete(attempt, keepBarrier) => AfterFinishDelete(s, attempt, attempt.sequence, keepBarrier)
    case BeginLegacy(uid, cancellable) => AfterBeginLegacy(s, Ticket(id, uid, 0), cancellable)
    case FinishLegacy(attempt) => AfterFinishLegacy(s, attempt)
  }

  function Step(c: Coordinator, e: Event): Coordinator {
    if e.FinishLegacy? then
      Coordinator(ModelsAfterFinishLegacy(c.models, e.attempt.uid, e.attempt), c.issued + 1)
    else
      Coordinator(c.models[UidOf(e) := Moved(StateOf(c.models, UidOf(e)), e, c.issued)], c.issued + 1)
  }

  datatype Run = Run(states: seq<Coordinator>, events: seq<Event>)
  {
    ghost predicate Valid() {
      |states| == |events| + 1 && states[0] == Coordinator(map[], 0) && forall i :: Linked(i)
    }

    predicate Linked(i: int)
      requires |states| == |events| + 1
    {
      0 <= i < |events| ==> states[i + 1] == Step(states[i], events[i])
    }

    function At(n: nat, uid: string): Model
      requires n < |states|
    {
      StateOf(states[n].models, uid)
    }
  }

  // ---- one model's invariant ----

  predicate Issued(attempt: Ticket, uid: string, issued: nat) {
    attempt.uid == uid && attempt.id < issued
  }

  predicate Good(s: Model, uid: string, issued: nat) {
    && (s.download.Some? ==>
        Issued(s.download.value, uid, issued) && s.download.value.sequence == s.newestDownload != 0)
    && (s.deleteAttempt.Some? ==>
        Issued(s.deleteAttempt.value, uid, issued) && s.deleteAttempt.value.sequence == s.deleteSequence != 0)
    && (s.deleteSequence != 0 ==> s.deleteSequence > s.newestDownload && s.deleteSequence > s.finishedDelete)
    && (forall a :: a in s.legacy ==> Issued(a, uid, issued))
    && (s.latestLegacy.Some? ==> s.latestLegacy.value in s.legacy)
  }

  ghost predicate AllGood(c: Coordinator) {
    forall uid :: Good(StateOf(c.models, uid), uid, c.issued)
  }

  /** The newest delete the model has seen admitted. */
  function Barrier(s: Model): nat {
    if s.deleteSequence != 0 then s.deleteSequence else s.finishedDelete
  }

  /** Fences only grow. */
  predicate FencesGrow(s: Model, t: Model) {
    s.newestDownload <= t.newestDownload && s.finishedDelete <= t.finishedDelete && Barrier(s) <= Barrier(t)
  }

  /** A model is dropped only when it is exactly as good as new. */
  lemma DroppedIsIdle(s: Model, uid: string, issued: nat)
    requires Good(s, uid, issued) && Droppable(s)
    ensures s == Idle()
  {
  }

  lemma MovedGood(s: Model, e: Event, id: nat)
    requires Good(s, UidOf(e), id)
    ensures Good(Moved(s, e, id), UidOf(e), id + 1) && FencesGrow(s, Moved(s, e, id))
  {
  }

  /** Dropping an idle model's state cannot be told from keeping it. */
  lemma StepMoves(c: Coordinator, e: Event, uid: string)
    requires AllGood(c)
    ensures StateOf(Step(c, e).models, uid) == if uid == UidOf(e) then Moved(StateOf(c.models, uid), e, c.issued)
            else StateOf(c.models, uid)
  {
    if e.FinishLegacy? && uid == e.attempt.uid && uid in c.models {
      MovedGood(c.models[uid], e, c.issued);
      if Droppable(AfterFinishLegacy(c.models[uid], e.attempt)) {
        DroppedIsIdle(AfterFinishLegacy(c.models[uid], e.attempt), uid, c.issued + 1);
      }
    }
  }

  lemma StepGood(c: Coordinator, e: Event)
    requires AllGood(c)
    ensures AllGood(Step(c, e))
    ensures forall uid :: FencesGrow(StateOf(c.models, uid), StateOf(Step(c, e).models, uid))
  {
    forall uid ensures Good(StateOf(Step(c, e).models, uid), uid, c.issued + 1)
      && FencesGrow(StateOf(c.models, uid), StateOf(Step(c, e).models, uid)) {
      StepMoves(c, e, uid);
      if uid == UidOf(e) { MovedGood(StateOf(c.models, uid), e, c.issued); }
    }
  }

  lemma {:induction false} RunGood(run: Run, n: nat)
    requires run.Valid() && n < |run.states|
    ensures AllGood(run.states[n])
  {
    if n > 0 {
      RunGood(run, n - 1);
      assert run.Linked(n - 1);
      StepGood(run.states[n - 1], run.events[n - 1]);
    }
  }

  lemma RunMoves(run: Run, n: nat, uid: string)
    requires run.Valid() && n < |run.events|
    ensures run.At(n + 1, uid) == if uid == UidOf(run.events[n])
            then Moved(run.At(n, uid), run.events[n], run.states[n].issued) else run.At(n, uid)
    ensures Good(run.At(n, uid), uid, run.states[n].issued) && run.states[n + 1].issued == run.states[n].issued + 1
  {
    RunGood(run, n);
    assert run.Linked(n);
    StepMoves(run.states[n], run.events[n], uid);
  }

  /** In every run the fences of every model are monotone. */
  lemma {:induction false} FencesAreMonotone(run: Run, i: nat, j: nat, uid: string)
    requires run.Valid() && i <= j < |run.states|
    ensures FencesGrow(run.At(i, uid), run.At(j, uid))
    decreases j
  {
    if i < j {
      FencesAreMonotone(run, i, j - 1, uid);
      RunMoves(run, j - 1, uid);
      if uid == UidOf(run.events[j - 1]) { MovedGood(run.At(j - 1, uid), run.events[j - 1], run.states[j - 1].issued); }
    }
  }

  // ---- the history of admissions ----

  /** Event `i` is a sequenced task of this model that was told to proceed. */
  predicate Proceeds(run: Run, i: nat, uid: string)
    requires |run.states| == |run.events| + 1 && i < |run.events|
  {
    (run.events[i].BeginDownload? || run.events[i].BeginDelete?) && run.events[i].uid == uid
      && Verdict(run.states[i], run.events[i]) == Proceed
  }

  /** After a task proceeded, both later fences remember it. */
  lemma ProceedRaisesFence(run: Run, i: nat, uid: string)
    requires run.Valid() && i < |run.events| && Proceeds(run, i, uid)
    ensures run.events[i].BeginDownload? ==> run.At(i + 1, uid).newestDownload == run.events[i].sequence
    ensures run.events[i].BeginDelete? ==> Barrier(run.At(i + 1, uid)) == run.events[i].sequence
  {
    RunMoves(run, i, uid);
  }

  /** Tasks proceed in sequence order, strictly so across a switch between download and delete. */
  lemma ProceedsInOrder(run: Run, i: nat, j: nat, uid: string)
    requires run.Valid() && i < j < |run.events| && Proceeds(run, i, uid) && Proceeds(run, j, uid)
    ensures run.events[i].sequence <= run.events[j].sequence
    ensures run.events[i].BeginDelete? != run.events[j].BeginDelete? ==> run.events[i].sequence < run.events[j].sequence
  {
    ProceedRaisesFence(run, i, uid);
    FencesAreMonotone(run, i + 1, j, uid);
    RunMoves(run, j, uid);
  }

  // ---- the delete barrier ----

  lemma BarrierBlocksDownloads(s: Model, e: Event, id: nat)
    requires s.deleteSequence != 0 && s.download.None?
    ensures Moved(s, e, id).download.None?
  {
  }

  /** From the moment a delete proceeds until its barrier falls, no sequenced download holds the slot. */
  lemma {:induction false} DeleteExcludesDownloads(run: Run, i: nat, j: nat, uid: string)
    requires run.Valid() && i < j < |run.states| && run.events[i].BeginDelete? && Proceeds(run, i, uid)
    requires forall k :: i < k < j ==> run.At(k, uid).deleteSequence != 0
    ensures run.At(j, uid).download.None?
    decreases j
  {
    RunMoves(run, j - 1, uid);
    if i < j - 1 {
      DeleteExcludesDownloads(run, i, j - 1, uid);
      BarrierBlocksDownloads(run.At(j - 1, uid), run.events[j - 1], run.states[j - 1].issued);
    }
  }

  /** A kept barrier's own task proceeds as soon as no work is active. */
  lemma BarrierOwnerProceeds(run: Run, n: nat, uid: string)
    requires run.Valid() && n < |run.states| && uid != ""
    requires run.At(n, uid).deleteSequence != 0 && run.At(n, uid).deleteAttempt.None?
    requires run.At(n, uid).download.None? && run.At(n, uid).legacy == {}
    ensures Verdict(run.states[n], BeginDelete(uid, run.At(n, uid).deleteSequence)) == Proceed
  {
    RunGood(run, n);
    assert Good(run.At(n, uid), uid, run.states[n].issued);
  }

  /** And nobody else proceeds while it stands. */
  lemma BarrierStopsOthers(run: Run, n: nat, uid: string, e: Event)
    requires run.Valid() && n < |run.states| && run.At(n, uid).deleteSequence != 0
    requires (e.BeginDownload? || (e.BeginDelete? && e.sequence != run.At(n, uid).deleteSequence)) && e.uid == uid
    ensures Verdict(run.states[n], e) != Proceed
  {
  }

  // ---- attempt identity ----

  /** The attempt still holds the slot it was given. */
  predicate Holds(s: Model, attempt: Ticket) {
    s.download == Some(attempt) || s.deleteAttempt == Some(attempt) || attempt in s.legacy
  }

  lemma NotGivenAgain(s: Model, e: Event, id: nat, attempt: Ticket)
    requires attempt.id < id && !Holds(s, attempt)
    ensures !Holds(Moved(s, e, id), attempt)
  {
  }

  lemma IssuedCounts(run: Run, n: nat)
    requires run.Valid() && n < |run.states|
    ensures run.states[n].issued == n
  {
    if n > 0 {
      IssuedCounts(run, n - 1);
      assert run.Linked(n - 1);
    }
  }

  lemma {:induction false} SupersededForGood(run: Run, i: nat, j: nat, attempt: Ticket)
    requires run.Valid() && attempt.id < i <= j < |run.states| && !Holds(run.At(i, attempt.uid), attempt)
    ensures !Holds(run.At(j, attempt.uid), attempt)
    decreases j
  {
    if i < j {
      SupersededForGood(run, i, j - 1, attempt);
      RunMoves(run, j - 1, attempt.uid);
      IssuedCounts(run, j - 1);
      NotGivenAgain(run.At(j - 1, attempt.uid), run.events[j - 1], run.states[j - 1].issued, attempt);
    }
  }

  /** Finishing an attempt that lost its slot, now or ever after, changes no model. */
  lemma SupersededFinishChangesNothing(run: Run, i: nat, j: nat, attempt: Ticket, e: Event, uid: string)
    requires run.Valid() && attempt.id < i <= j < |run.states| && !Holds(run.At(i, attempt.uid), attempt)
    requires e == FinishDownload(attempt) || e == FinishLegacy(attempt) || (e.FinishDelete? && e.attempt == attempt)
    ensures StateOf(Step(run.states[j], e).models, uid) == run.At(j, uid)
  {
    SupersededForGood(run, i, j, attempt);
    RunGood(run, j);
    StepMoves(run.states[j], e, uid);
    assert Good(run.At(j, attempt.uid), attempt.uid, run.states[j].issued);
  }

  // ---- dropping idle models ----

  /** The coordinator that never drops a model. */
  function KeepingStep(c: Coordinator, e: Event): Coordinator {
    Coordinator(c.models[UidOf(e) := Moved(StateOf(c.models, UidOf(e)), e, c.issued)], c.issued + 1)
  }

  ghost predicate Indistinguishable(c: Coordinator, d: Coordinator) {
    c.issued == d.issued && forall uid :: StateOf(c.models, uid) == StateOf(d.models, uid)
  }

  lemma KeepingStepAgrees(c: Coordinator, d: Coordinator, e: Event)
    requires AllGood(c) && Indistinguishable(c, d)
    ensures Verdict(c, e) == Verdict(d, e) && Indistinguishable(Step(c, e), KeepingStep(d, e))
  {
    assert StateOf(c.models, UidOf(e)) == StateOf(d.models, UidOf(e));
    forall uid ensures StateOf(Step(c, e).models, uid) == StateOf(KeepingStep(d, e).models, uid) {
      StepMoves(c, e, uid);
      assert StateOf(c.models, uid) == StateOf(d.models, uid);
    }
  }

  /** Every run gives the same verdicts as one in which idle models are kept for ever. */
  lemma {:induction false} DroppingEqualsKeeping(run: Run, kept: seq<Coordinator>, n: nat)
    requires run.Valid() && |kept| == |run.states| && kept[0] == run.states[0]
    requires forall i :: 0 <= i < |run.events| ==> kept[i + 1] == KeepingStep(kept[i], run.events[i])
    requires n < |run.states|
    ensures Indistinguishable(run.states[n], kept[n])
    ensures n < |run.events| ==> Verdict(run.states[n], run.events[n]) == Verdict(kept[n], run.events[n])
  {
    RunGood(run, n);
    if n > 0 {
      DroppingEqualsKeeping(run, kept, n - 1);
      RunGood(run, n - 1);
      assert run.Linked(n - 1);
      assert kept[n - 1 + 1] == KeepingStep(kept[n - 1], run.events[n - 1]);
      KeepingStepAgrees(run.states[n - 1], kept[n - 1], run.events[n - 1]);
    }
    if n < |run.events| { KeepingStepAgrees(run.states[n], kept[n], run.events[n]); }
  }
}
