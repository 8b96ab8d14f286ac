/**
 The records of the shared Hugging Face artifact protocol (hf_artifact_data.go, model_data.go).

 One parent directory per model and commit is shared by many child models through symlinks.
 Ownership is kept in one ConfigMap, here a `Store` with a typed map of parent records and a typed
 map of child model records. Parent records are indexed by identity.
 */
module HfTypes {

  datatype Option<+T> = None | Some(value: T)

  /** ConfigMap key of a child model, e.g. "default.basemodel.m". */
  type ModelKey = string

  /** A cleaned absolute child path; "" stands for a missing one. */
  type Path = string

  /** UID of a model resource; "" stands for a missing one. */
  type Uid = string

  /** Lock IDs are fresh naturals; `NO_LOCK` stands for the empty string. */
  type LockId = nat

  const NO_LOCK: LockId := 0

  datatype Identity = Identity(modelId: string, commitSha: string)

  /** The directory root/_artifacts/modelId/commitSha of one identity below a store root. */
  datatype DirPath = DirPath(root: Path, identity: Identity)

  datatype ParentStatus = Ready | Updating | Failed

  datatype ModelStatus = ModelReady | ModelUpdating | ModelFailed | ModelDeleted

  /** `saved` holds the child statuses that a repair temporarily replaced with Failed. */
  datatype Parent = Parent(
    localPath: DirPath,
    status: ParentStatus,
    lockId: LockId,
    lastCompleted: LockId,
    children: map<ModelKey, Path>,
    saved: map<ModelKey, ModelStatus>)
  {
    /** Released, unfinished work: no owner, but a receipt of the last one. */
    predicate Interrupted() {
      status == Updating && lockId == NO_LOCK && lastCompleted != NO_LOCK
    }

    predicate BlocksNewOperation() {
      status == Updating && !Interrupted()
    }
  }

  datatype PendingDownload = PendingDownload(identity: Identity, parentPath: DirPath, childPath: Path, uid: Uid)
  {
    function DeletionReceipt(): PendingDeletion {
      PendingDeletion(identity, parentPath, childPath, uid, NO_LOCK, false, None)
    }
  }

  datatype PendingDeletion = PendingDeletion(
    identity: Identity,
    parentPath: DirPath,
    childPath: Path,
    uid: Uid,
    parentLock: LockId,
    parentWasReady: bool,
    statusBefore: Option<ParentStatus>)
  {
    function StatusBeforeDeletion(): ParentStatus {
      match statusBefore
      case Some(st) => st
      case None => if parentWasReady then Ready else Failed
    }
  }

  /** A model entry. `config` and `progress` are carried along, never inspected. */
  datatype Child = Child(
    name: string,
    status: ModelStatus,
    config: Option<string>,
    progress: Option<string>,
    parentKey: Option<Identity>,
    pendingDeletion: Option<PendingDeletion>,
    pendingDownload: Option<PendingDownload>)

  datatype Store = Store(parents: map<Identity, Parent>, children: map<ModelKey, Child>)

  /** `Rejected` is an error return: nothing is written. `Done` with an unchanged store is a successful no-op. */
  datatype Outcome<+T> = Rejected | Done(store: Store, result: T)

  /** validateHfArtifactIdentityAndPath: the directory is this identity's in some store. */
  predicate CanonicalPath(id: Identity, path: DirPath) {
    path.identity == id
  }
}
