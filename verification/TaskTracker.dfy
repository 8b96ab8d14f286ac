/**
 The per-model task coordinator (gopher_task_tracker.go): sequence fences, the delete barrier and
 attempt identity, as a transition function on values and as the class that updates them in place.
 */
module TaskTracker {
  import opened HfTypes

  const MAX_SEQUENCE: nat := 0xFFFF_FFFF_FFFF_FFFF

  /** A uint64 task sequence; zero is unsequenced. */
  type Sequence = x: nat | x <= MAX_SEQUENCE

  datatype StartResult = Proceed | Wait | Stale

  /** One model's slots and fences; `D`, `L` and `E` are download, legacy and delete attempts. */
  datatype ModelState<D, L(==), E> = ModelState(
    download: Option<D>,
    legacy: set<L>,
    latestLegacy: Option<L>,
    newestDownload: Sequence,
    finishedDelete: Sequence,
    deleteSequence: Sequence,
    deleteAttempt: Option<E>)

  function Idle<D, L, E>(): ModelState<D, L, E> {
    ModelState(None, {}, None, 0, 0, 0, None)
  }

  /** modelStateLocked: a missing entry is an idle model. */
  function StateOf<D, L, E>(models: map<string, ModelState<D, L, E>>, uid: string): ModelState<D, L, E> {
    if uid in models then models[uid] else Idle()
  }

  // ---- admission ----

  function DownloadVerdict<D, L, E>(s: ModelState<D, L, E>, sequence: Sequence): (r: StartResult)
  {
    if sequence <= s.finishedDelete || sequence < s.newestDownload then Stale
    else if s.deleteSequence != 0 then (if sequence <= s.deleteSequence then Stale else Wait)
    else if s.download.Some? || s.legacy != {} then Wait
    else Proceed
  }

  predicate DeleteStale<D, L, E>(s: ModelState<D, L, E>, sequence: Sequence) {
    sequence <= s.newestDownload || sequence <= s.finishedDelete
      || (s.deleteSequence != 0 && sequence < s.deleteSequence)
  }

  /** Another attempt, or another sequence, owns the barrier. */
  predicate BarrierTaken<D, L, E>(s: ModelState<D, L, E>, sequence: Sequence) {
    s.deleteSequence != 0 && (sequence != s.deleteSequence || s.deleteAttempt.Some?)
  }

  predicate ReservesBarrier<D, L, E>(s: ModelState<D, L, E>, sequence: Sequence) {
    !DeleteStale(s, sequence) && !BarrierTaken(s, sequence)
  }

  function DeleteVerdict<D, L, E>(s: ModelState<D, L, E>, sequence: Sequence): (r: StartResult)
  {
    if DeleteStale(s, sequence) then Stale
    else if BarrierTaken(s, sequence) || s.download.Some? || s.legacy != {} then Wait
    else Proceed
  }

  function AfterBeginDownload<D, L, E>(s: ModelState<D, L, E>, sequence: Sequence, attempt: D): ModelState<D, L, E> {
    if DownloadVerdict(s, sequence) == Proceed then s.(download := Some(attempt), newestDownload := sequence) else s
  }

  function AfterBeginDelete<D, L, E>(s: ModelState<D, L, E>, sequence: Sequence, attempt: E): ModelState<D, L, E> {
    if ReservesBarrier(s, sequence) then s.(deleteSequence := sequence, deleteAttempt := Some(attempt)) else s
  }

  function AfterBeginLegacy<D, L, E>(s: ModelState<D, L, E>, attempt: L, cancellable: bool): ModelState<D, L, E> {
    s.(legacy := s.legacy + {attempt}, latestLegacy := if cancellable then Some(attempt) else s.latestLegacy)
  }

  function AfterFinishDownload<D(==), L, E>(s: ModelState<D, L, E>, attempt: D): ModelState<D, L, E> {
    if s.download == Some(attempt) then s.(download := None) else s
  }

  function AfterFinishDelete<D, L,
    E(==)>(s: ModelState<D, L, E>, attempt: E, sequence: Sequence, keepBarrier: bool): ModelState<D, L, E> {
    if s.deleteAttempt != Some(attempt) then s
    else if keepBarrier then s.(deleteAttempt := None)
    else s.(deleteAttempt := None, finishedDelete := sequence, deleteSequence := 0)
  }

  function AfterFinishLegacy<D, L, E>(s: ModelState<D, L, E>, attempt: L): ModelState<D, L, E> {
    s.(legacy := s.legacy - {attempt}, latestLegacy := if s.latestLegacy == Some(attempt) then None else s.latestLegacy)
  }

  /** finishLegacyTask drops a model whose fences were never set. */
  predicate Droppable<D, L, E>(s: ModelState<D, L, E>) {
    s.legacy == {} && s.newestDownload == 0 && s.deleteSequence == 0 && s.finishedDelete == 0
  }

  function ModelsAfterFinishLegacy<D, L,
    E>(models: map<string, ModelState<D, L, E>>, uid: string, attempt: L): map<string, ModelState<D, L, E>> {
    if uid !in models then models
    else
      var s := AfterFinishLegacy(models[uid], attempt);
      if Droppable(s) then models - {uid} else models[uid := s]
  }

  // ---- the class ----

  class DownloadAttempt {
    const modelUid: string
    const sequence: Sequence
    const cancellable: bool
    var cancelled: bool

    constructor (modelUid: string, sequence: Sequence, cancellable: bool)
      ensures this.modelUid == modelUid && this.sequence == sequence && this.cancellable == cancellable && !cancelled
    {
      this.modelUid, this.sequence, this.cancellable, cancelled := modelUid, sequence, cancellable, false;
    }
  }

  class DeleteAttempt {
    const modelUid: string
    const sequence: Sequence

    constructor (modelUid: string, sequence: Sequence)
      ensures this.modelUid == modelUid && this.sequence == sequence
    {
      this.modelUid, this.sequence := modelUid, sequence;
    }
  }

  class LegacyAttempt {
    const modelUid: string
    const cancellable: bool
    var cancelled: bool

    constructor (modelUid: string, cancellable: bool)
      ensures this.modelUid == modelUid && this.cancellable == cancellable && !cancelled
    {
      this.modelUid, this.cancellable, cancelled := modelUid, cancellable, false;
    }
  }

  type Slots = ModelState<DownloadAttempt, LegacyAttempt, DeleteAttempt>

  ghost function LatestLegacy(s: Slots): set<object> {
    if s.latestLegacy.Some? then {s.latestLegacy.value as object} else {}
  }

  /** The attempts whose context a delete of this model may cancel. */
  ghost function Cancellable(s: Slots): set<object> {
    (if s.download.Some? then {s.download.value as object} else {}) + LatestLegacy(s)
  }

  /**
   An attempt in a slot left its mark: a download in its fence, a delete in the barrier, the latest legacy
   task among the others.
   */
  predicate Consistent<D, L, E>(s: ModelState<D, L, E>) {
    && (s.download.Some? ==> s.newestDownload != 0)
    && (s.deleteAttempt.Some? ==> s.deleteSequence != 0)
    && (s.latestLegacy.Some? ==> s.latestLegacy.value in s.legacy)
  }

  /** A model that is dropped had nothing left to remember. */
  lemma DroppableIsIdle<D, L, E>(s: ModelState<D, L, E>)
    requires Consistent(s) && Droppable(s)
    ensures s == Idle()
  {
  }

  class Tracker {
    var nextSequence: Sequence
    var models: map<string, Slots>

    ghost predicate Valid()
      reads this
    {
      forall uid :: uid in models ==> Consistent(models[uid])
    }

    constructor ()
      ensures Valid() && nextSequence == 0 && models == map[]
    {
      nextSequence, models := 0, map[];
    }

    /** A new task's number is newer than every number seen, until the counter wraps around. */
    method EnsureSequence(existing: Sequence) returns (sequence: Sequence)
      modifies this`nextSequence
      ensures existing != 0 ==>
                sequence == existing && nextSequence == if existing > old(nextSequence) then existing
                else old(nextSequence)
      ensures existing == 0 ==> nextSequence == sequence
      ensures existing == 0 ==> (sequence > old(nextSequence) <==> old(nextSequence) != MAX_SEQUENCE)
      ensures existing == 0 ==> (sequence == 0 <==> old(nextSequence) == MAX_SEQUENCE)
    {
      if existing > nextSequence {
        nextSequence := existing;
      }
      if existing != 0 {
        return existing;
      }
      nextSequence := if nextSequence == MAX_SEQUENCE then 0 else nextSequence + 1;
      sequence := nextSequence;
    }

    method BeginDownload(uid: string, sequence: Sequence, cancellable: bool)
      returns (attempt: DownloadAttempt?, result: StartResult)
      requires Valid()
      modifies this`models
      ensures Valid()
      ensures result == if uid == "" || sequence == 0 then Stale
              else DownloadVerdict(old(StateOf(models, uid)), sequence)
      ensures attempt != null <==> result == Proceed
      ensures attempt != null ==>
                fresh(attempt) && attempt.modelUid == uid && attempt.sequence == sequence && !attempt.cancelled
      ensures attempt != null ==>
                StateOf(models, uid) == AfterBeginDownload(old(StateOf(models, uid)), sequence, attempt)
      ensures attempt == null ==> StateOf(models, uid) == old(StateOf(models, uid))
      ensures forall u :: u != uid ==> StateOf(models, u) == old(StateOf(models, u))
    {
      if uid == "" || sequence == 0 {
        return null, Stale;
      }
      var state := StateOf(models, uid);
      models := models[uid := state];
      if sequence <= state.finishedDelete || sequence < state.newestDownload {
        return null, Stale;
      }
      if state.deleteSequence != 0 {
        if sequence <= state.deleteSequence {
          return null, Stale;
        }
        return null, Wait;
      }
      if state.download.Some? || state.legacy != {} {
        return null, Wait;
      }
      attempt := new DownloadAttempt(uid, sequence, cancellable);
      models := models[uid := state.(download := Some(attempt), newestDownload := sequence)];
      result := Proceed;
    }

    method FinishDownload(attempt: DownloadAttempt?)
      requires Valid()
      modifies this`models
      ensures Valid()
      ensures attempt == null ==> models == old(models)
      ensures attempt != null ==>
                StateOf(models, attempt.modelUid) ==
                  AfterFinishDownload(old(StateOf(models, attempt.modelUid)), attempt)
      ensures attempt != null ==> forall u :: u != attempt.modelUid ==> StateOf(models, u) == old(StateOf(models, u))
    {
      if attempt == null {
        return;
      }
      if attempt.modelUid in models && models[attempt.modelUid].download == Some(attempt) {
        models := models[attempt.modelUid := models[attempt.modelUid].(download := None)];
      }
    }

    /** Reserves the barrier first, then cancels older work outside the lock. */
    method BeginDelete(uid: string, sequence: Sequence) returns (attempt: DeleteAttempt?, result: StartResult)
      requires Valid()
      modifies this`models, Cancellable(StateOf(models, uid))
      ensures Valid()
      ensures result == if uid == "" || sequence == 0 then Stale else DeleteVerdict(old(StateOf(models, uid)), sequence)
      ensures attempt != null <==> uid != "" && sequence != 0 && ReservesBarrier(old(StateOf(models, uid)), sequence)
      ensures attempt != null ==> fresh(attempt) && attempt.modelUid == uid && attempt.sequence == sequence
      ensures attempt != null ==> StateOf(models, uid) == AfterBeginDelete(old(StateOf(models, uid)), sequence, attempt)
      ensures attempt == null ==> StateOf(models, uid) == old(StateOf(models, uid))
      ensures forall u :: u != uid ==> StateOf(models, u) == old(StateOf(models, u))
      ensures attempt == null ==> unchanged(old(Cancellable(StateOf(models, uid))))
      ensures attempt != null && old(StateOf(models, uid)).download.Some? ==>
                var active := old(StateOf(models, uid)).download.value;
                active.cancelled == (active.cancellable || old(active.cancelled))
      ensures attempt != null && old(StateOf(models, uid)).download.None?
              && old(StateOf(models, uid)).latestLegacy.Some? ==>
                var latest := old(StateOf(models, uid)).latestLegacy.value;
                latest.cancelled == (latest.cancellable || old(latest.cancelled))
      ensures old(StateOf(models, uid)).download.Some? && old(StateOf(models, uid)).latestLegacy.Some? ==>
                unchanged(old(StateOf(models, uid)).latestLegacy.value)
    {
      if uid == "" || sequence == 0 {
        return null, Stale;
      }
      var state := StateOf(models, uid);
      models := models[uid := state];
      if DeleteStale(state, sequence) {
        return null, Stale;
      }
      if BarrierTaken(state, sequence) {
        return null, Wait;
      }
      attempt := new DeleteAttempt(uid, sequence);
      models := models[uid := state.(deleteSequence := sequence, deleteAttempt := Some(attempt))];
      if state.download.Some? {
        if state.download.value.cancellable {
          state.download.value.cancelled := true;
        }
        return attempt, Wait;
      }
      if state.legacy != {} {
        CancelLegacyDownload(uid);
        return attempt, Wait;
      }
      result := Proceed;
    }

    method CancelLegacyDownload(uid: string)
      modifies LatestLegacy(StateOf(models, uid))
      ensures StateOf(models, uid).latestLegacy.Some? ==>
                var latest := StateOf(models, uid).latestLegacy.value;
                latest.cancelled == (latest.cancellable || old(latest.cancelled))
    {
      if uid in models && models[uid].latestLegacy.Some? {
        var latest := models[uid].latestLegacy.value;
        if latest.cancellable {
          latest.cancelled := true;
        }
      }
    }

    method FinishDelete(attempt: DeleteAttempt?, keepBarrier: bool)
      requires Valid()
      modifies this`models
      ensures Valid()
      ensures attempt == null ==> models == old(models)
      ensures attempt != null ==>
                StateOf(models, attempt.modelUid) ==
                  AfterFinishDelete(old(StateOf(models, attempt.modelUid)), attempt, attempt.sequence, keepBarrier)
      ensures attempt != null ==> forall u :: u != attempt.modelUid ==> StateOf(models, u) == old(StateOf(models, u))
    {
      if attempt == null || attempt.modelUid !in models || models[attempt.modelUid].deleteAttempt != Some(attempt) {
        return;
      }
      var state := models[attempt.modelUid].(deleteAttempt := None);
      if !keepBarrier {
        state := state.(finishedDelete := attempt.sequence, deleteSequence := 0);
      }
      models := models[attempt.modelUid := state];
    }

    method BeginLegacyTask(uid: string, cancellable: bool) returns (attempt: LegacyAttempt)
      requires Valid()
      modifies this`models
      ensures Valid()
      ensures fresh(attempt) && attempt.modelUid == uid && attempt.cancellable == cancellable && !attempt.cancelled
      ensures StateOf(models, uid) == AfterBeginLegacy(old(StateOf(models, uid)), attempt, cancellable)
      ensures forall u :: u != uid ==> StateOf(models, u) == old(StateOf(models, u))
    {
      var state := StateOf(models, uid);
      attempt := new LegacyAttempt(uid, cancellable);
      state := state.(legacy := state.legacy + {attempt});
      if cancellable {
        state := state.(latestLegacy := Some(attempt));
      }
      models := models[uid := state];
    }

    /** The attempt leaves its model, and nobody can tell whether the model was kept or dropped. */
    method FinishLegacyTask(attempt: LegacyAttempt)
      requires Valid()
      modifies this`models
      ensures Valid()
      ensures StateOf(models, attempt.modelUid) == AfterFinishLegacy(old(StateOf(models, attempt.modelUid)), attempt)
      ensures attempt !in StateOf(models, attempt.modelUid).legacy
      ensures StateOf(models, attempt.modelUid).latestLegacy != Some(attempt)
      ensures forall u :: u != attempt.modelUid ==> StateOf(models, u) == old(StateOf(models, u))
      ensures models == ModelsAfterFinishLegacy(old(models), attempt.modelUid, attempt)
    {
      if attempt.modelUid !in models {
        return;
      }
      var state := models[attempt.modelUid];
      state := state.(legacy := state.legacy - {attempt});
      if state.latestLegacy == Some(attempt) {
        state := state.(latestLegacy := None);
      }
      models := models[attempt.modelUid := state];
      if state.legacy == {} && state.newestDownload == 0 && state.deleteSequence == 0 && state.finishedDelete == 0 {
        DroppableIsIdle(state);
        models := models - {attempt.modelUid};
      }
    }
  }
}
