/** What deliveries, messages and the delivery lock keep. */
module WorkerInvariant {
  import opened Base
  import opened DocumentRows
  import opened Relay
  import opened Ingestion
  import opened Protocol
  import opened ProtocolInvariant

  // ------------------------------------------------------------------ effect of a worker action

  function TaskOf(c: Cell, d: nat): TaskId {
    if d in c.deliveries then c.deliveries[d].message.taskId else ""
  }

  /** A worker commit moves the version row and the audit trail together, or not at all. */
  predicate CommitsRow(cfg: Config, task: TaskId, row: Option<Version>, row': Option<Version>,
                       log: seq<AuditEvent>, now: int) {
    if row.None? then row'.None? && log == []
    else row'.Some? && RowMoved(cfg, task, row.value, row'.value, log, now)
  }

  lemma ReactionCommitsRow(cfg: Config, row: Option<Version>, d: Delivery, a: WorkerAction, now: int)
    requires Allows(d.stage, a)
    ensures var e := React(cfg, row, d, a, now);
            CommitsRow(cfg, d.message.taskId, row, e.version, e.log, now)
  {
  }

  ghost predicate OtherDeliveriesSame(c: Cell, c': Cell, d: nat) {
    forall e :: e != d ==> (e in c'.deliveries <==> e in c.deliveries)
                           && (e in c.deliveries ==> c'.deliveries[e] == c.deliveries[e])
  }

  /** Fields no worker action writes. */
  predicate OutboxUntouched(c: Cell, c': Cell) {
    && c'.id == c.id && c'.uploaded == c.uploaded && c'.stored == c.stored
    && c'.intent == c.intent && c'.taskId == c.taskId
    && c'.ledger == c.ledger && c'.publications == c.publications
    && c'.mishaps.foreign == c.mishaps.foreign
    && c.mishaps.faults <= c'.mishaps.faults && c.mishaps.lockLosses <= c'.mishaps.lockLosses
  }

  /** What is common to all worker actions; `log` is what the action appended to the audit trail. */
  ghost predicate WorkerStep(cfg: Config, c: Cell, c': Cell, d: nat, log: seq<AuditEvent>, now: int) {
    && OutboxUntouched(c, c')
    && OtherDeliveriesSame(c, c', d)
    && c'.audits == c.audits + log
    && CommitsRow(cfg, TaskOf(c, d), c.version, c'.version, log, now)
  }

  lemma PerformSteps(cfg: Config, c: Cell, d: nat, e: Effect, now: int)
    requires d in c.deliveries && CommitsRow(cfg, TaskOf(c, d), c.version, e.version, e.log, now)
    ensures WorkerStep(cfg, c, Perform(c, d, e), d, e.log, now)
  {
  }

  lemma WorkerSteps(cfg: Config, c: Cell, d: nat, a: WorkerAction, now: int) returns (log: seq<AuditEvent>)
    requires WorkerEnabled(c, d, a)
    ensures WorkerStep(cfg, c, ApplyWorker(cfg, c, d, a, now), d, log, now)
  {
    log := [];
    match a
    case Receive(_) => assert c.audits + [] == c.audits;
    case DropLock => assert c.audits + [] == c.audits;
    case TryLock => PerformSteps(cfg, c, d, Stay(c.version, if c.lock.None? then Some(Locked) else None), now);
    case _ =>
      var e := React(cfg, c.version, c.deliveries[d], a, now);
      ReactionCommitsRow(cfg, c.version, c.deliveries[d], a, now);
      PerformSteps(cfg, c, d, e, now);
      log := e.log;
  }

  // ------------------------------------------------------------------ the two retry counters

  /** A message never runs ahead of the durable attempt count by more than the faults so far. */
  predicate MessageBudget(v: Version, retries: nat, faults: nat) {
    retries <= Recorded(v) + faults
  }

  predicate DeliveryBudget(cfg: Config, v: Version, d: Delivery, faults: nat) {
    match d.stage
    case Received => MessageBudget(v, d.message.retries, faults)
    case Locked => MessageBudget(v, d.message.retries, faults)
    case Working => d.message.retries + 1 <= v.attempts + faults
    case Retrying(_) => d.message.retries + 1 <= v.attempts + faults
    case Exhausting => d.message.retries + 1 <= v.attempts + faults && d.message.retries >= cfg.maxRetries
    case Prepared => MessageBudget(v, d.message.retries + 1, faults) && d.message.retries < cfg.maxRetries
  }

  predicate ExhaustedSoundly(cfg: Config, v: Version, faults: nat) {
    v.status.Failed? && v.error == Some(RetryExhausted) ==>
      v.attempts >= 1 && v.attempts + faults >= MaxAttempts(cfg)
  }

  lemma BudgetGrows(cfg: Config, v: Version, v': Version, d: Delivery, faults: nat, faults': nat)
    requires DeliveryBudget(cfg, v, d, faults)
    requires Recorded(v) <= Recorded(v') && v.attempts <= v'.attempts && faults <= faults'
    ensures DeliveryBudget(cfg, v', d, faults')
  {
  }

  /** The effect leaves the delivery, what it sends and a give-up within the budget. */
  predicate WithinBudget(cfg: Config, d: Delivery, e: Effect, faults: nat) {
    && e.version.Some?
    && var faults' := faults + if e.fault then 1 else 0;
       && (e.next.Some? ==> DeliveryBudget(cfg, e.version.value, d.(stage := e.next.value), faults'))
       && (e.sent.Some? ==> MessageBudget(e.version.value, e.sent.value.retries, faults'))
       && ExhaustedSoundly(cfg, e.version.value, faults')
  }

  lemma ReactionKeepsBudget(cfg: Config, v: Version, d: Delivery, a: WorkerAction, now: int, faults: nat)
    requires Allows(d.stage, a) && VersionShape(cfg, v, now)
    requires v.owner.None? || v.owner == Some(d.message.taskId)
    requires DeliveryBudget(cfg, v, d, faults) && ExhaustedSoundly(cfg, v, faults)
    ensures WithinBudget(cfg, d, React(cfg, Some(v), d, a, now), faults)
  {
  }

  ghost predicate RetryInv(cfg: Config, c: Cell) {
    c.mishaps.foreign == 0 && c.version.Some? ==>
      && (forall m :: m in c.broker ==> MessageBudget(c.version.value, m.retries, c.mishaps.faults))
      && (forall p :: p in c.publications ==> MessageBudget(c.version.value, p.retries, c.mishaps.faults))
      && (forall d :: d in c.deliveries ==> DeliveryBudget(cfg, c.version.value, c.deliveries[d], c.mishaps.faults))
      && ExhaustedSoundly(cfg, c.version.value, c.mishaps.faults)
  }

  // ------------------------------------------------------------------ ownership

  /** Every message, delivery and publication carries the one identity of the intent. */
  ghost predicate OneTask(c: Cell, task: TaskId) {
    && (forall m :: m in c.broker ==> m.taskId == task)
    && (forall p :: p in c.publications ==> p.taskId == task)
    && (forall d :: d in c.deliveries ==> c.deliveries[d].message.taskId == task)
  }

  /** Every message and delivery descends from a publication that a claim handed out. */
  ghost predicate Origins(c: Cell) {
    && (forall m :: m in c.broker ==> m.origin in c.ledger.issued)
    && (forall d :: d in c.deliveries ==> c.deliveries[d].message.origin in c.ledger.issued)
  }

  ghost predicate OwnerInv(c: Cell) {
    c.mishaps.foreign == 0 ==>
      && (c.taskId.Some? ==>
            && OneTask(c, c.taskId.value) && Origins(c)
            && (c.version.Some? && c.version.value.owner.Some? ==> c.version.value.owner == c.taskId))
      && (c.taskId.None? ==>
            && c.broker == multiset{} && c.deliveries == map[]
            && (c.version.Some? ==> c.version.value.status.Queued? && c.version.value.owner != Some("")))
      && (c.intent.Some? ==> c.intent.value.lastError != Some(OwnershipAmbiguous))
  }

  // ------------------------------------------------------------------ the delivery lock

  predicate InsideClaim(stage: Stage) {
    stage.Working? || stage.Exhausting?
  }

  /** The holder is a live delivery; while no lock was lost it is alone and owns what it works on. */
  ghost predicate LockInv(c: Cell) {
    && (c.lock.Some? ==> c.lock.value in c.deliveries && !c.deliveries[c.lock.value].stage.Received?)
    && (c.mishaps.lockLosses == 0 ==>
          && (forall d :: d in c.deliveries ==> c.deliveries[d].stage.Received? || c.lock == Some(d))
          && (forall d :: d in c.deliveries && InsideClaim(c.deliveries[d].stage) ==>
                c.version.Some? && OwnedExtraction(c.version.value, c.deliveries[d].message.taskId)))
  }

  /** A delivery goes on only with the row it is working on in its own hands. */
  predicate KeepsClaim(e: Effect, task: TaskId)
    requires e.next.Some?
  {
    && !e.next.value.Received?
    && (InsideClaim(e.next.value) ==> e.version.Some? && OwnedExtraction(e.version.value, task))
  }

  lemma ReactionKeepsClaim(cfg: Config, row: Option<Version>, d: Delivery, a: WorkerAction, now: int)
    requires Allows(d.stage, a)
    ensures var e := React(cfg, row, d, a, now);
            e.next.Some? ==> KeepsClaim(e, d.message.taskId)
  {
  }

  // ------------------------------------------------------------------ worker actions keep all three

  lemma PerformKeepsRetries(cfg: Config, c: Cell, d: nat, e: Effect, now: int)
    requires d in c.deliveries && CommitsRow(cfg, TaskOf(c, d), c.version, e.version, e.log, now)
    requires RetryInv(cfg, c)
    requires c.mishaps.foreign == 0 && c.version.Some? ==> WithinBudget(cfg, c.deliveries[d], e, c.mishaps.faults)
    ensures RetryInv(cfg, Perform(c, d, e))
  {
    var c' := Perform(c, d, e);
    if c'.mishaps.foreign == 0 && c'.version.Some? {
      var v, v' := c.version.value, c'.version.value;
      RowMovedGrows(cfg, TaskOf(c, d), v, v', e.log, now);
      forall k | k in c'.deliveries && k != d
        ensures DeliveryBudget(cfg, v', c'.deliveries[k], c'.mishaps.faults)
      {
        BudgetGrows(cfg, v, v', c.deliveries[k], c.mishaps.faults, c'.mishaps.faults);
      }
    }
  }

  /** A retry keeps the identity and the line of descent of the message it repeats. */
  predicate Continues(sent: Message, m: Message) {
    sent.taskId == m.taskId && sent.origin == m.origin
  }

  lemma PerformKeepsOwner(cfg: Config, c: Cell, d: nat, e: Effect, now: int)
    requires d in c.deliveries && CommitsRow(cfg, TaskOf(c, d), c.version, e.version, e.log, now)
    requires OwnerInv(c) && (e.sent.Some? ==> Continues(e.sent.value, c.deliveries[d].message))
    ensures OwnerInv(Perform(c, d, e))
  {
  }

  lemma PerformKeepsLock(c: Cell, d: nat, e: Effect)
    requires d in c.deliveries && !c.deliveries[d].stage.Received? && LockInv(c)
    requires e.next.Some? ==> KeepsClaim(e, TaskOf(c, d))
    ensures LockInv(Perform(c, d, e))
  {
  }

  lemma ReactionKeepsTask(cfg: Config, row: Option<Version>, d: Delivery, a: WorkerAction, now: int)
    requires Allows(d.stage, a)
    ensures var e := React(cfg, row, d, a, now);
            e.sent.Some? ==> Continues(e.sent.value, d.message)
  {
  }

  lemma WorkerKeepsRetries(cfg: Config, c: Cell, d: nat, a: WorkerAction, now: int)
    requires WorkerEnabled(c, d, a)
    requires c.version.Some? ==> VersionShape(cfg, c.version.value, now)
    requires RetryInv(cfg, c) && OwnerInv(c)
    ensures RetryInv(cfg, ApplyWorker(cfg, c, d, a, now))
  {
    match a
    case Receive(_) =>
    case DropLock =>
    case TryLock => PerformKeepsRetries(cfg, c, d, Stay(c.version, if c.lock.None? then Some(Locked) else None), now);
    case _ =>
      ReactionCommitsRow(cfg, c.version, c.deliveries[d], a, now);
      if c.mishaps.foreign == 0 && c.version.Some? {
        ReactionKeepsBudget(cfg, c.version.value, c.deliveries[d], a, now, c.mishaps.faults);
      }
      PerformKeepsRetries(cfg, c, d, React(cfg, c.version, c.deliveries[d], a, now), now);
  }

  lemma WorkerKeepsOwner(cfg: Config, c: Cell, d: nat, a: WorkerAction, now: int)
    requires WorkerEnabled(c, d, a) && OwnerInv(c)
    ensures OwnerInv(ApplyWorker(cfg, c, d, a, now))
  {
    match a
    case Receive(_) =>
    case DropLock =>
    case TryLock => PerformKeepsOwner(cfg, c, d, Stay(c.version, if c.lock.None? then Some(Locked) else None), now);
    case _ =>
      ReactionCommitsRow(cfg, c.version, c.deliveries[d], a, now);
      ReactionKeepsTask(cfg, c.version, c.deliveries[d], a, now);
      PerformKeepsOwner(cfg, c, d, React(cfg, c.version, c.deliveries[d], a, now), now);
  }

  lemma WorkerKeepsLock(cfg: Config, c: Cell, d: nat, a: WorkerAction, now: int)
    requires WorkerEnabled(c, d, a) && LockInv(c)
    ensures LockInv(ApplyWorker(cfg, c, d, a, now))
  {
    match a
    case Receive(_) =>
    case DropLock =>
    case TryLock =>
    case Die =>
    case _ =>
      ReactionKeepsClaim(cfg, c.version, c.deliveries[d], a, now);
      PerformKeepsLock(c, d, React(cfg, c.version, c.deliveries[d], a, now));
  }
}
