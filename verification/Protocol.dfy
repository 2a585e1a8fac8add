/**
 Everything that can happen to one document version between upload and settlement: relay
 transactions, worker deliveries, the broker, the operator, and what may go wrong with them.
 One database transaction is one action.
 */
module Protocol {
  import opened Base
  import opened DocumentRows
  import opened Relay
  import opened Ingestion

  datatype Config = Config(relay: RelayPolicy, maxRetries: nat)

  /** The worker is built with one attempt more than it has retries. */
  function MaxAttempts(cfg: Config): nat {
    cfg.maxRetries + 1
  }

  /**
   A Celery message: it carries its own retry number beside the durable task id. `origin` names the
   publication it descends from; no transaction reads it.
   */
  datatype Message = Message(taskId: TaskId, retries: nat, origin: Token)

  /** Where a running delivery is between two of its transactions. */
  datatype Stage =
    | Received             // taken from the broker, delivery lock not tried yet
    | Locked               // about to run `_claim`
    | Working              // claimed: staging, scanning, extracting
    | Retrying(code: ErrorCode)  // `process` raised a retryable error
    | Exhausting           // `_owned_record` found the row still owned, about to fail it
    | Prepared             // about to publish the next retry

  datatype Delivery = Delivery(message: Message, stage: Stage)

  /** How staging, scanning, extracting and the final commit ended. */
  datatype WorkOutcome =
    | Extracted(text: string)
    | Rejected(code: ErrorCode)
    | Unavailable(code: ErrorCode)
    | CommitFailed

  /** The relay's dealings with one intent so far; no transaction reads it. */
  datatype Ledger = Ledger(
    selections: nat,         // times `claim` selected the intent
    publishes: nat,          // selections that handed out a publication
    defers: nat,             // selections that only waited for a running extraction
    lastDefer: nat,          // attempt number at the last such wait
    marks: nat,              // selections that marked the intent unresolved
    settles: nat,            // selections that settled it
    grants: nat,             // operator rearms
    publishesAtGrant: nat,   // publications before the last rearm
    issued: set<Token>,      // lease tokens ever handed out
    dead: set<Token>)        // lease tokens that no longer hold the lease

  const NO_LEDGER: Ledger := Ledger(0, 0, 0, 0, 0, 0, 0, 0, {}, {})

  /** What the surroundings have done so far; no transaction reads it. */
  datatype Mishaps = Mishaps(
    faults: nat,             // worker claims and retry preparations the database refused
    foreign: nat,            // messages that neither the relay nor a retry published
    lockLosses: nat)         // delivery locks lost under a live delivery

  datatype Cell = Cell(
    id: nat,
    uploaded: bool,          // created through the upload path, not a legacy row
    stored: bool,            // the object is in storage
    version: Option<Version>,
    audits: seq<AuditEvent>,
    intent: Option<Intent>,
    taskId: Option<TaskId>,  // identity of the version's intent, remembered after cleanup
    ledger: Ledger,
    publications: set<Publication>,
    broker: multiset<Message>,
    deliveries: map<nat, Delivery>,
    lock: Option<nat>,       // the delivery holding the advisory lock
    mishaps: Mishaps)

  /** A version id that an upload has just drawn. */
  function EmptyCell(id: nat): Cell {
    Cell(id, true, false, None, [], None, None, NO_LEDGER, {}, multiset{}, map[], None, Mishaps(0, 0, 0))
  }

  /** A queued version from before the outbox: old producers and workers are paused. */
  function LegacyCell(id: nat, owner: Option<TaskId>, attempts: nat, error: Option<ErrorCode>): Cell {
    EmptyCell(id).(uploaded := false, stored := true,
                   version := Some(Version(Queued, attempts, owner, None, error, None)))
  }

  datatype UploadAction =
    | PutObject
    | CommitUpload(intentId: nat, task: TaskId)
    | AbortUpload(removed: bool)

  datatype RelayAction =
    | BackfillIntent(intentId: nat, task: TaskId)
    | ClaimIntent(token: Token)
    | PublishClaimed(publication: Publication)
    | FinishClaimed(publication: Publication, success: bool)
    | SettleIntent
    | RemoveIntent
    | GrantRearm

  datatype BrokerAction =
    | Lose(message: Message)
    | Duplicate(message: Message)
    | Inject(message: Message)

  datatype WorkerAction =
    | Receive(message: Message)
    | TryLock
    | ClaimWork(fault: bool)
    | FinishWork(outcome: WorkOutcome)
    | HandleRetry(fault: bool)
    | FailExhausted(fault: bool)
    | PublishRetry(sent: bool)
    | Die
    | DropLock

  datatype Action =
    | Upload(upload: UploadAction)
    | Outbox(outbox: RelayAction)
    | Broker(broker: BrokerAction)
    | Worker(d: nat, worker: WorkerAction)

  predicate PermanentCode(code: ErrorCode) {
    code.MalwareDetected? || code.UnsupportedDocument? || code.ExtractionFailed? || code.ExtractionLimitExceeded?
  }

  predicate UploadEnabled(c: Cell, a: UploadAction) {
    && c.uploaded && c.version.None?
    && match a
       case PutObject => true
       case CommitUpload(_, task) => c.stored && task != ""
       case AbortUpload(_) => c.stored
  }

  predicate OutboxEnabled(cfg: Config, c: Cell, a: RelayAction, now: int) {
    match a
    case BackfillIntent(_, task) => c.version.Some? && c.version.value.status.Queued? && c.intent.None? && task != ""
    case ClaimIntent(token) =>
      c.version.Some? && c.intent.Some? && Due(c.intent.value, now) && token !in c.ledger.issued
    case PublishClaimed(p) => p in c.publications
    case FinishClaimed(p, _) => p in c.publications && c.intent.Some?
    case SettleIntent => c.version.Some? && c.intent.Some? && Settleable(c.intent.value, c.version.value, now)
    case RemoveIntent => c.intent.Some? && Removable(c.intent.value, now)
    case GrantRearm =>
      && c.version.Some? && c.intent.Some?
      && RearmRefusal(c.intent.value, c.version.value, now, true, true, c.lock.Some?,
                      cfg.relay.extractingSeconds, MaxAttempts(cfg)).None?
  }

  predicate BrokerEnabled(c: Cell, a: BrokerAction) {
    a.Inject? || a.message in c.broker
  }

  /** The stage a delivery must have reached for its next step to be `a`. */
  predicate Allows(stage: Stage, a: WorkerAction) {
    match a
    case TryLock => stage.Received?
    case ClaimWork(_) => stage.Locked?
    case FinishWork(outcome) =>
      && stage.Working?
      && (outcome.Rejected? ==> PermanentCode(outcome.code))
      && (outcome.Unavailable? ==> outcome.code.StorageUnavailable? || outcome.code.ScannerUnavailable?)
    case HandleRetry(_) => stage.Retrying?
    case FailExhausted(_) => stage.Exhausting?
    case PublishRetry(_) => stage.Prepared?
    case _ => true
  }

  predicate WorkerEnabled(c: Cell, d: nat, a: WorkerAction) {
    if a.Receive? then a.message in c.broker && d !in c.deliveries
    else if a.DropLock? then c.lock == Some(d)
    else d in c.deliveries && Allows(c.deliveries[d].stage, a)
  }

  predicate Enabled(cfg: Config, c: Cell, a: Action, now: int) {
    match a
    case Upload(u) => UploadEnabled(c, u)
    case Outbox(r) => OutboxEnabled(cfg, c, r, now)
    case Broker(b) => BrokerEnabled(c, b)
    case Worker(d, w) => WorkerEnabled(c, d, w)
  }

  function Apply(cfg: Config, c: Cell, a: Action, now: int): Cell
    requires Enabled(cfg, c, a, now)
  {
    match a
    case Upload(u) => ApplyUpload(c, u, now)
    case Outbox(r) => ApplyOutbox(cfg, c, r, now)
    case Broker(b) => ApplyBroker(c, b)
    case Worker(d, w) => ApplyWorker(cfg, c, d, w, now)
  }

  function ApplyUpload(c: Cell, a: UploadAction, now: int): Cell
    requires UploadEnabled(c, a)
  {
    match a
    case PutObject => c.(stored := true)
    case CommitUpload(id, task) =>
      c.(version := Some(NEW_VERSION), audits := c.audits + [Uploaded],
         intent := Some(NewIntent(id, c.id, task, now)), taskId := Some(task))
    case AbortUpload(removed) => c.(stored := !removed)
  }

  function ApplyOutbox(cfg: Config, c: Cell, a: RelayAction, now: int): Cell
    requires OutboxEnabled(cfg, c, a, now)
  {
    match a
    case BackfillIntent(id, minted) =>
      var task := BackfillTask(c.version.value.owner, minted);
      c.(intent := Some(NewIntent(id, c.id, task, now)), taskId := Some(task))
    case ClaimIntent(token) => ApplyClaim(cfg, c, token, now)
    case PublishClaimed(p) => c.(broker := c.broker + multiset{Message(p.taskId, p.retries, p.token)})
    case FinishClaimed(p, success) =>
      if HoldsLease(c.intent.value, p, now) then
        c.(intent := Some(Finish(cfg.relay, c.intent.value, now, success)), ledger := Retired(c.ledger))
      else c
    case SettleIntent =>
      c.(intent := Some(Settle(c.intent.value, now)), ledger := Retired(c.ledger))
    case RemoveIntent => c.(intent := None)
    case GrantRearm =>
      var i := Rearm(c.intent.value, now);
      c.(intent := Some(i), audits := c.audits + [Rearmed(i.recoveryGrants)],
         ledger := Granted(c.ledger))
  }

  function ApplyBroker(c: Cell, a: BrokerAction): Cell {
    match a
    case Lose(m) => c.(broker := c.broker - multiset{m})
    case Duplicate(m) => c.(broker := c.broker + multiset{m})
    case Inject(m) =>
      c.(broker := c.broker + multiset{m}, mishaps := c.mishaps.(foreign := c.mishaps.foreign + 1))
  }

  function ApplyWorker(cfg: Config, c: Cell, d: nat, a: WorkerAction, now: int): Cell
    requires WorkerEnabled(c, d, a)
  {
    match a
    case Receive(m) => c.(deliveries := c.deliveries[d := Delivery(m, Received)])
    case DropLock => c.(lock := None, mishaps := c.mishaps.(lockLosses := c.mishaps.lockLosses + 1))
    case TryLock =>
      if c.lock.None?
      then Perform(c, d, Stay(c.version, Some(Locked))).(lock := Some(d))
      else Perform(c, d, Stay(c.version, None))
    case _ => Perform(c, d, React(cfg, c.version, c.deliveries[d], a, now))
  }

  function ApplyClaim(cfg: Config, c: Cell, token: Token, now: int): Cell
    requires c.version.Some? && c.intent.Some?
  {
    var (i, selection) := Claim(cfg.relay, c.intent.value, c.version.value, now, token);
    c.(intent := Some(i),
       publications := if selection.Published? then c.publications + {selection.publication} else c.publications,
       ledger := Selected(c.ledger, selection, c.version.value.attempts, token))
  }

  /** The lease ended: no token handed out so far holds it. */
  function Retired(l: Ledger): Ledger {
    l.(dead := l.issued)
  }

  function Granted(l: Ledger): Ledger {
    l.(grants := l.grants + 1, publishesAtGrant := l.publishes, dead := l.issued)
  }

  function Selected(l: Ledger, selection: Selection, attempts: nat, token: Token): Ledger {
    var next := Retired(l).(selections := l.selections + 1);
    match selection
    case Published(_) => next.(publishes := l.publishes + 1, issued := l.issued + {token})
    case Settled => next.(settles := l.settles + 1)
    case Deferred => next.(defers := l.defers + 1, lastDefer := attempts)
    case Ambiguous => next.(marks := l.marks + 1)
    case Exhausted => next.(marks := l.marks + 1)
  }

  /** What one step of a delivery does: its commit, its next stage, what it sends. */
  datatype Effect = Effect(
    version: Option<Version>,
    log: seq<AuditEvent>,
    next: Option<Stage>,     // None: the delivery is over
    sent: Option<Message>,
    fault: bool)

  function Stay(v: Option<Version>, next: Option<Stage>): Effect {
    Effect(v, [], next, None, false)
  }

  /** A delivery that is over closes its lock connection. */
  function Perform(c: Cell, d: nat, e: Effect): Cell
    requires d in c.deliveries
  {
    c.(version := e.version,
       audits := c.audits + e.log,
       deliveries :=
         if e.next.Some? then c.deliveries[d := c.deliveries[d].(stage := e.next.value)] else c.deliveries - {d},
       lock := if e.next.None? && c.lock == Some(d) then None else c.lock,
       broker := if e.sent.Some? then c.broker + multiset{e.sent.value} else c.broker,
       mishaps := if e.fault then c.mishaps.(faults := c.mishaps.faults + 1) else c.mishaps)
  }

  function React(cfg: Config, v: Option<Version>, d: Delivery, a: WorkerAction, now: int): Effect
    requires Allows(d.stage, a)
  {
    match a
    case ClaimWork(fault) => ClaimEffect(cfg, v, d.message, fault, now)
    case FinishWork(outcome) => WorkEffect(v, d.message, outcome)
    case HandleRetry(fault) => RetryEffect(cfg, v, d.message, d.stage.code, fault)
    case FailExhausted(fault) => if fault then Stay(v, None) else FailEffect(v, d.message, RetryExhausted)
    case PublishRetry(sent) =>
      Stay(v, None).(sent := if sent then Some(d.message.(retries := d.message.retries + 1)) else None)
    case _ => Stay(v, None)
  }

  function ClaimEffect(cfg: Config, row: Option<Version>, m: Message, fault: bool, now: int): Effect {
    if fault then
      Stay(row, Some(Retrying(DatabaseUnavailable))).(fault := true)
    else if row.None? then
      Stay(row, None)
    else
      var (v, outcome) := ClaimVersion(row.value, m.taskId, now, MaxAttempts(cfg));
      match outcome
      case Proceed => Stay(Some(v), Some(Working))
      case GaveUp => Stay(Some(v), None).(log := [MarkedFailed(RetryExhausted, v.attempts)])
      case AlreadyTerminal => Stay(row, None)
      case OwnedByAnotherTask => Stay(row, None)
  }

  /** `_mark_failed`: the audit event is written exactly when the version row is. */
  function FailEffect(row: Option<Version>, m: Message, code: ErrorCode): Effect {
    if row.Some? && OwnedExtraction(row.value, m.taskId)
    then Stay(Some(MarkFailed(row.value, m.taskId, code)), None).(log := [MarkedFailed(code, row.value.attempts)])
    else Stay(row, None)
  }

  function WorkEffect(row: Option<Version>, m: Message, outcome: WorkOutcome): Effect {
    match outcome
    case Extracted(text) =>
      if row.Some? && OwnedExtraction(row.value, m.taskId)
      then Stay(Some(MarkReady(row.value, m.taskId, text)), None).(log := [MarkedReady(row.value.attempts, |text|)])
      else Stay(row, None)
    case Rejected(code) => FailEffect(row, m, code)
    case Unavailable(code) => Stay(row, Some(Retrying(code)))
    case CommitFailed => Stay(row, Some(Retrying(DatabaseUnavailable)))
  }

  /** `run_delivery` after a retryable error: give up at the last retry, else hand the row back. */
  function RetryEffect(cfg: Config, row: Option<Version>, m: Message, code: ErrorCode, fault: bool): Effect {
    if m.retries >= cfg.maxRetries then
      Stay(row, if !fault && row.Some? && OwnedExtraction(row.value, m.taskId) then Some(Exhausting) else None)
    else if fault then
      Stay(row, Some(Prepared)).(fault := true)
    else
      Stay(if row.Some? then Some(PrepareRetry(row.value, m.taskId, code)) else None, Some(Prepared))
  }
}
