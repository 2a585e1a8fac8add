/** The whole invariant of one version's cell, and that every enabled action keeps it. */
module IngestionInvariant {
  import opened Base
  import opened DocumentRows
  import opened Relay
  import opened Ingestion
  import opened Protocol
  import opened ProtocolInvariant
  import opened WorkerInvariant

  /** How version, intent, stored object and ledger hang together. */
  ghost predicate LinkInv(cfg: Config, c: Cell) {
    && (c.version.None? ==> c.taskId.None?)
    && (c.intent.Some? ==>
          && c.version.Some? && c.taskId == Some(c.intent.value.taskId) && c.intent.value.versionId == c.id
          && forall p :: p in c.publications ==> p.intentId == c.intent.value.id)
    && (c.taskId.None? ==> c.ledger == NO_LEDGER && c.publications == {})
    && (c.uploaded && c.version.Some? ==> c.stored && c.taskId.Some?)
    && (c.taskId.Some? && !Terminal(c.version.value) ==> c.intent.Some? && c.intent.value.settledAt.None?)
    && (c.version.Some? ==> LedgerBound(cfg, c.ledger, c.version.value.attempts))
    && (forall p :: p in c.publications ==> p.token in c.ledger.issued && p.versionId == c.id)
  }

  ghost predicate RowsInv(cfg: Config, c: Cell, now: int) {
    && (c.version.Some? ==> VersionShape(cfg, c.version.value, now))
    && AuditShape(cfg, c.version, c.audits, c.ledger.grants)
    && LinkInv(cfg, c)
    && (c.intent.Some? ==> IntentInv(cfg, c.intent.value, c.version.value, c.ledger, now))
  }

  ghost predicate CellInv(cfg: Config, c: Cell, now: int) {
    && RowsInv(cfg, c, now)
    && RetryInv(cfg, c)
    && OwnerInv(c)
    && LockInv(c)
  }

  lemma EmptyCellInv(cfg: Config, id: nat, now: int)
    ensures CellInv(cfg, EmptyCell(id), now)
  {
  }

  lemma LegacyCellInv(cfg: Config, id: nat, owner: Option<TaskId>, attempts: nat, error: Option<ErrorCode>, now: int)
    requires attempts <= MaxAttempts(cfg) && owner != Some("")
    ensures CellInv(cfg, LegacyCell(id, owner, attempts, error), now)
  {
  }

  lemma TimePasses(cfg: Config, c: Cell, now: int, later: int)
    requires CellInv(cfg, c, now) && now <= later
    ensures CellInv(cfg, c, later)
  {
  }

  /** Before the commit there is nothing about the version but its object. */
  predicate Unborn(c: Cell) {
    && c.version.None? && c.intent.None? && c.taskId.None? && c.ledger == NO_LEDGER && c.publications == {}
  }

  lemma CommitKeepsRows(cfg: Config, c: Cell, id: nat, task: TaskId, now: int)
    requires UploadEnabled(c, CommitUpload(id, task)) && RowsInv(cfg, c, now) && Unborn(c)
    ensures RowsInv(cfg, ApplyUpload(c, CommitUpload(id, task), now), now)
  {
    AuditAppended(c.audits, Uploaded);
    IntentBorn(cfg, id, c.id, task, NEW_VERSION, now);
  }

  lemma CommitKeepsMessages(cfg: Config, c: Cell, id: nat, task: TaskId, now: int)
    requires UploadEnabled(c, CommitUpload(id, task)) && Unborn(c) && RetryInv(cfg, c) && OwnerInv(c) && LockInv(c)
    ensures var c' := ApplyUpload(c, CommitUpload(id, task), now); RetryInv(cfg, c') && OwnerInv(c') && LockInv(c')
  {
  }

  lemma UploadKeepsInv(cfg: Config, c: Cell, a: UploadAction, now: int)
    requires UploadEnabled(c, a) && CellInv(cfg, c, now)
    ensures CellInv(cfg, ApplyUpload(c, a, now), now)
  {
    assert c.version.None?;
    if a.CommitUpload? {
      CommitKeepsRows(cfg, c, a.intentId, a.task, now);
      CommitKeepsMessages(cfg, c, a.intentId, a.task, now);
    }
  }

  lemma WorkerKeepsRows(cfg: Config, c: Cell, d: nat, a: WorkerAction, now: int)
    requires WorkerEnabled(c, d, a) && RowsInv(cfg, c, now)
    ensures RowsInv(cfg, ApplyWorker(cfg, c, d, a, now), now)
  {
    var log := WorkerSteps(cfg, c, d, a, now);
    StepKeepsRows(cfg, c, ApplyWorker(cfg, c, d, a, now), d, log, now);
  }

  lemma StepKeepsRows(cfg: Config, c: Cell, c': Cell, d: nat, log: seq<AuditEvent>, now: int)
    requires WorkerStep(cfg, c, c', d, log, now) && RowsInv(cfg, c, now)
    ensures RowsInv(cfg, c', now)
  {
    if c.version.None? {
      assert c.audits + [] == c.audits;
    } else {
      var task, v, v' := TaskOf(c, d), c.version.value, c'.version.value;
      RowMovedKeepsShape(cfg, task, v, v', log, c.audits, c.ledger.grants, now);
      RowMovedGrows(cfg, task, v, v', log, now);
      if c.intent.Some? {
        RowMovedKeepsIntent(cfg, task, c.intent.value, v, v', log, c.ledger, now);
      }
    }
  }

  /** Losing or repeating a message brings no new one; a foreign one is counted as such. */
  lemma BrokerKeepsMessages(cfg: Config, c: Cell, a: BrokerAction)
    requires BrokerEnabled(c, a) && RetryInv(cfg, c) && OwnerInv(c)
    ensures RetryInv(cfg, ApplyBroker(c, a)) && OwnerInv(ApplyBroker(c, a))
  {
    if !a.Inject? {
      assert forall m :: m in ApplyBroker(c, a).broker ==> m in c.broker;
    }
  }

  lemma BrokerKeepsInv(cfg: Config, c: Cell, a: BrokerAction, now: int)
    requires BrokerEnabled(c, a) && CellInv(cfg, c, now)
    ensures CellInv(cfg, ApplyBroker(c, a), now)
  {
    BrokerKeepsMessages(cfg, c, a);
  }

  lemma ClaimKeepsRows(cfg: Config, c: Cell, token: Token, now: int)
    requires c.version.Some? && c.intent.Some? && Due(c.intent.value, now) && token !in c.ledger.issued
    requires RowsInv(cfg, c, now)
    ensures RowsInv(cfg, ApplyClaim(cfg, c, token, now), now)
  {
    ClaimKeepsShape(cfg, c.intent.value, c.version.value, c.ledger, now, token);
    ClaimKeepsTiming(cfg, c.intent.value, c.version.value, c.ledger, now, token);
    ClaimKeepsLedger(cfg, c.intent.value, c.version.value, c.ledger, now, token);
    ClaimSteps(cfg, c, token, now);
  }

  /** The publication handed out carries the intent's identity and the recorded retry number. */
  lemma ClaimKeepsMessages(cfg: Config, c: Cell, token: Token, now: int)
    requires c.version.Some? && c.intent.Some? && CellInv(cfg, c, now)
    ensures var c' := ApplyClaim(cfg, c, token, now); RetryInv(cfg, c') && OwnerInv(c') && LockInv(c')
  {
    var c' := ApplyClaim(cfg, c, token, now);
    ClaimSteps(cfg, c, token, now);
    ClaimStepKeepsRetries(cfg, c, c', token, now);
    ClaimStepKeepsOwner(cfg, c, c', token, now);
  }

  lemma ClaimStepKeepsRetries(cfg: Config, c: Cell, c': Cell, token: Token, now: int)
    requires ClaimStep(cfg, c, c', token) && RetryInv(cfg, c) && VersionShape(cfg, c.version.value, now)
    ensures RetryInv(cfg, c')
  {
  }

  lemma ClaimStepKeepsOwner(cfg: Config, c: Cell, c': Cell, token: Token, now: int)
    requires ClaimStep(cfg, c, c', token) && OwnerInv(c) && VersionShape(cfg, c.version.value, now)
    requires c.taskId == Some(c.intent.value.taskId)
    ensures OwnerInv(c')
  {
  }

  /** A transaction that rewrites the intent row without handing out a token. */
  lemma RewriteKeepsInv(cfg: Config, c: Cell, i: Intent, l: Ledger, audits: seq<AuditEvent>, now: int)
    requires c.version.Some? && c.intent.Some? && CellInv(cfg, c, now)
    requires IntentInv(cfg, i, c.version.value, l, now) && l.issued == c.ledger.issued
    requires i.id == c.intent.value.id && i.versionId == c.intent.value.versionId
    requires i.taskId == c.intent.value.taskId && i.lastError != Some(OwnershipAmbiguous)
    requires i.settledAt.Some? ==> Terminal(c.version.value)
    requires AuditShape(cfg, c.version, audits, l.grants)
    ensures CellInv(cfg, c.(intent := Some(i), ledger := l, audits := audits), now)
  {
  }

  lemma BackfillKeepsInv(cfg: Config, c: Cell, id: nat, minted: TaskId, now: int)
    requires OutboxEnabled(cfg, c, BackfillIntent(id, minted), now) && CellInv(cfg, c, now)
    ensures CellInv(cfg, ApplyOutbox(cfg, c, BackfillIntent(id, minted), now), now)
  {
    assert c.taskId.None?;
    IntentBorn(cfg, id, c.id, BackfillTask(c.version.value.owner, minted), c.version.value, now);
  }

  lemma RearmAudited(cfg: Config, v: Option<Version>, audits: seq<AuditEvent>, grants: nat)
    requires AuditShape(cfg, v, audits, grants)
    ensures AuditShape(cfg, v, audits + [Rearmed(grants + 1)], grants + 1)
  {
    AuditAppended(audits, Rearmed(grants + 1));
  }

  lemma RearmKeepsInv(cfg: Config, c: Cell, now: int)
    requires c.version.Some? && c.intent.Some? && c.intent.value.settledAt.None? && CellInv(cfg, c, now)
    requires IntentInv(cfg, Rearm(c.intent.value, now), c.version.value, Granted(c.ledger), now)
    ensures var i := Rearm(c.intent.value, now);
            CellInv(cfg, c.(intent := Some(i), ledger := Granted(c.ledger),
                            audits := c.audits + [Rearmed(i.recoveryGrants)]), now)
  {
    var i := Rearm(c.intent.value, now);
    RearmAudited(cfg, c.version, c.audits, c.ledger.grants);
    RewriteKeepsInv(cfg, c, i, Granted(c.ledger), c.audits + [Rearmed(i.recoveryGrants)], now);
  }

  lemma FinishKeepsInv(cfg: Config, c: Cell, p: Publication, success: bool, now: int)
    requires OutboxEnabled(cfg, c, FinishClaimed(p, success), now) && CellInv(cfg, c, now)
    ensures CellInv(cfg, ApplyOutbox(cfg, c, FinishClaimed(p, success), now), now)
  {
    if HoldsLease(c.intent.value, p, now) {
      FinishKeepsIntent(cfg, c.intent.value, c.version.value, c.ledger, now, success);
      RewriteKeepsInv(cfg, c, Finish(cfg.relay, c.intent.value, now, success), Retired(c.ledger), c.audits, now);
    }
  }

  lemma SettleKeepsInv(cfg: Config, c: Cell, now: int)
    requires OutboxEnabled(cfg, c, SettleIntent, now) && CellInv(cfg, c, now)
    ensures CellInv(cfg, ApplyOutbox(cfg, c, SettleIntent, now), now)
  {
    SettleKeepsIntent(cfg, c.intent.value, c.version.value, c.ledger, now);
    RewriteKeepsInv(cfg, c, Settle(c.intent.value, now), Retired(c.ledger), c.audits, now);
  }

  lemma PublishKeepsInv(cfg: Config, c: Cell, p: Publication, now: int)
    requires p in c.publications && CellInv(cfg, c, now)
    ensures CellInv(cfg, ApplyOutbox(cfg, c, PublishClaimed(p), now), now)
  {
  }

  lemma OutboxKeepsInv(cfg: Config, c: Cell, a: RelayAction, now: int)
    requires OutboxEnabled(cfg, c, a, now) && CellInv(cfg, c, now)
    ensures CellInv(cfg, ApplyOutbox(cfg, c, a, now), now)
  {
    match a
    case BackfillIntent(id, minted) => BackfillKeepsInv(cfg, c, id, minted, now);
    case ClaimIntent(token) =>
      ClaimKeepsRows(cfg, c, token, now);
      ClaimKeepsMessages(cfg, c, token, now);
    case PublishClaimed(p) => PublishKeepsInv(cfg, c, p, now);
    case FinishClaimed(p, success) => FinishKeepsInv(cfg, c, p, success, now);
    case SettleIntent => SettleKeepsInv(cfg, c, now);
    case RemoveIntent =>
    case GrantRearm =>
      RearmKeepsIntent(cfg, c.intent.value, c.version.value, c.ledger, now, c.lock.Some?);
      RearmKeepsInv(cfg, c, now);
  }

  /** The main inductive step: whatever happens next, the invariant survives it. */
  lemma ActionKeepsInv(cfg: Config, c: Cell, a: Action, now: int)
    requires Enabled(cfg, c, a, now) && CellInv(cfg, c, now)
    ensures CellInv(cfg, Apply(cfg, c, a, now), now)
  {
    match a
    case Upload(u) => UploadKeepsInv(cfg, c, u, now);
    case Outbox(r) => OutboxKeepsInv(cfg, c, r, now);
    case Broker(b) => BrokerKeepsInv(cfg, c, b, now);
    case Worker(d, w) =>
      WorkerKeepsRows(cfg, c, d, w, now);
      WorkerKeepsRetries(cfg, c, d, w, now);
      WorkerKeepsOwner(cfg, c, d, w, now);
      WorkerKeepsLock(cfg, c, d, w, now);
  }
}
