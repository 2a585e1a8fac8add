/**
 The two rows the ingestion protocol works on (app/documents/models.py), as values and as the
 mutable row objects a transaction assigns to.
 */
module DocumentRows {
  import opened Base

  type TaskId = string
  type Token = nat

  datatype Status = Queued | Extracting | Ready | Failed

  datatype ErrorCode =
    | DispatchFailed
    | StorageUnavailable
    | ScannerUnavailable
    | MalwareDetected
    | UnsupportedDocument
    | ExtractionFailed
    | ExtractionLimitExceeded
    | RetryExhausted
    | DatabaseUnavailable

  /** The columns of document_versions that processing reads or writes. */
  datatype Version = Version(
    status: Status,
    attempts: nat,
    owner: Option<TaskId>,
    startedAt: Option<int>,
    error: Option<ErrorCode>,
    text: Option<string>)

  predicate Terminal(v: Version) {
    v.status.Ready? || v.status.Failed?
  }

  predicate OwnedExtraction(v: Version, task: TaskId) {
    v.status.Extracting? && v.owner == Some(task)
  }

  datatype RelayError = PublishUnavailable | AttemptsExhausted | OwnershipAmbiguous

  /** One row of document_ingestion_outbox. */
  datatype Intent = Intent(
    id: nat,
    versionId: nat,
    taskId: TaskId,
    availableAt: int,
    publishedAt: Option<int>,
    settledAt: Option<int>,
    unresolvedAt: Option<int>,
    leaseToken: Option<Token>,
    leaseExpiresAt: Option<int>,
    publishAttempts: nat,
    recoveryAttempts: nat,
    recoveryGrants: nat,
    lastError: Option<RelayError>)

  datatype AuditEvent =
    | Uploaded
    | MarkedReady(attempts: nat, characters: nat)
    | MarkedFailed(code: ErrorCode, attempts: nat)
    | Rearmed(grant: nat)

  /** A freshly committed upload: queued, unowned, never attempted. */
  const NEW_VERSION: Version := Version(Queued, 0, None, None, None, None)

  function NewIntent(id: nat, versionId: nat, task: TaskId, now: int): Intent {
    Intent(id, versionId, task, now, None, None, None, None, None, 0, 0, 0, None)
  }

  class VersionRow {
    var status: Status
    var attempts: nat
    var owner: Option<TaskId>
    var startedAt: Option<int>
    var error: Option<ErrorCode>
    var text: Option<string>

    constructor (v: Version)
      ensures Value() == v
    {
      status := v.status;
      attempts := v.attempts;
      owner := v.owner;
      startedAt := v.startedAt;
      error := v.error;
      text := v.text;
    }

    function Value(): Version
      reads this
    {
      Version(status, attempts, owner, startedAt, error, text)
    }
  }

  class IntentRow {
    const id: nat
    const versionId: nat
    const taskId: TaskId
    var availableAt: int
    var publishedAt: Option<int>
    var settledAt: Option<int>
    var unresolvedAt: Option<int>
    var leaseToken: Option<Token>
    var leaseExpiresAt: Option<int>
    var publishAttempts: nat
    var recoveryAttempts: nat
    var recoveryGrants: nat
    var lastError: Option<RelayError>

    constructor (i: Intent)
      ensures Value() == i
    {
      id := i.id;
      versionId := i.versionId;
      taskId := i.taskId;
      availableAt := i.availableAt;
      publishedAt := i.publishedAt;
      settledAt := i.settledAt;
      unresolvedAt := i.unresolvedAt;
      leaseToken := i.leaseToken;
      leaseExpiresAt := i.leaseExpiresAt;
      publishAttempts := i.publishAttempts;
      recoveryAttempts := i.recoveryAttempts;
      recoveryGrants := i.recoveryGrants;
      lastError := i.lastError;
    }

    function Value(): Intent
      reads this
    {
      Intent(id, versionId, taskId, availableAt, publishedAt, settledAt, unresolvedAt, leaseToken,
             leaseExpiresAt, publishAttempts, recoveryAttempts, recoveryGrants, lastError)
    }
  }
}
