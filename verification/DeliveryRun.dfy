/**
 One undisturbed worker delivery (app/documents/tasks.py, `run_delivery`) as the code runs it, and
 one upload (app/documents/service.py); the delivery is shown to be a run of the protocol.
 */
module DeliveryRun {
  import opened Base
  import opened DocumentRows
  import opened Relay
  import opened Ingestion
  import opened Protocol
  import opened WorkerInvariant
  import opened IngestionInvariant
  import opened IngestionSystem
  import opened IngestionTheorems
  import opened IngestionProgress

  /** Claim, work and, after a retryable error, retry handling: the reactions one after another. */
  function Chain(cfg: Config, v: Version, m: Message, outcome: WorkOutcome, now: int): Effect {
    var claimed := React(cfg, Some(v), Delivery(m, Locked), ClaimWork(false), now);
    if claimed.next != Some(Working) then claimed
    else AfterClaim(cfg, claimed.version, m, outcome, now)
  }

  function AfterClaim(cfg: Config, row: Option<Version>, m: Message, outcome: WorkOutcome, now: int): Effect {
    var worked := WorkEffect(row, m, outcome);
    if worked.next.None? then worked else AfterFailure(cfg, worked.version, m, RetryCode(outcome), now)
  }

  /** After a retryable error: the row is given up, or handed back and the next retry sent. */
  function AfterFailure(cfg: Config, row: Option<Version>, m: Message, code: ErrorCode, now: int): Effect {
    var handled := RetryEffect(cfg, row, m, code, false);
    if handled.next == Some(Exhausting) then FailEffect(handled.version, m, RetryExhausted)
    else if handled.next == Some(Prepared) then
      React(cfg, handled.version, Delivery(m, Prepared), PublishRetry(true), now)
    else handled
  }

  function RetryCode(outcome: WorkOutcome): ErrorCode {
    if outcome.Unavailable? then outcome.code else DatabaseUnavailable
  }

  method RunDelivery(cfg: Config, tx: WorkerTransaction, m: Message, outcome: WorkOutcome, now: int)
    returns (retry: Option<Message>)
    modifies tx, tx.version
    ensures var e := Chain(cfg, old(tx.version.Value()), m, outcome, now);
            && e.version == Some(tx.version.Value())
            && tx.audits == old(tx.audits) + e.log
            && retry == e.sent
  {
    var claim := tx.Claim(m.taskId, now, MaxAttempts(cfg));
    if !claim.Proceed? {
      return None;
    }
    match outcome {
      case Extracted(text) =>
        tx.Complete(m.taskId, text);
        return None;
      case Rejected(code) =>
        tx.Reject(m.taskId, code);
        return None;
      case _ =>
    }
    if m.retries >= cfg.maxRetries {
      tx.Reject(m.taskId, RetryExhausted);
      return None;
    }
    tx.Requeue(m.taskId, RetryCode(outcome));
    return Some(m.(retries := m.retries + 1));
  }

  /** How an owned extraction with `attempts` on record ends: the row, the audit event and the message. */
  predicate Ends(cfg: Config, attempts: nat, m: Message, outcome: WorkOutcome, e: Effect) {
    && e.version.Some? && e.next.None? && !e.fault
    && e.version.value.attempts == attempts && e.version.value.owner.None? && e.version.value.startedAt.None?
    && match outcome
       case Extracted(text) => ReadyWith(e.version.value, text) && e.log == [MarkedReady(attempts, |text|)] && e.sent.None?
       case Rejected(code) => FailedWith(e.version.value, code) && e.log == [MarkedFailed(code, attempts)] && e.sent.None?
       case Unavailable(code) => EndsRetryable(cfg, attempts, m, code, e)
       case CommitFailed => EndsRetryable(cfg, attempts, m, DatabaseUnavailable, e)
  }

  /** Below the limit the row waits with the code of its failure; at the limit it is given up. */
  predicate EndsRetryable(cfg: Config, attempts: nat, m: Message, code: ErrorCode, e: Effect)
    requires e.version.Some?
  {
    if m.retries < cfg.maxRetries
    then
      && e.version.value.status.Queued? && e.version.value.error == Some(code) && e.log == []
      && e.sent == Some(Message(m.taskId, m.retries + 1, m.origin))
    else FailedWith(e.version.value, RetryExhausted) && e.log == [MarkedFailed(RetryExhausted, attempts)] && e.sent.None?
  }

  predicate ReadyWith(v: Version, text: string) {
    v.status.Ready? && v.text == Some(text) && v.error.None?
  }

  predicate FailedWith(v: Version, code: ErrorCode) {
    v.status.Failed? && v.error == Some(code) && v.text.None?
  }

  lemma AfterClaimEnds(cfg: Config, v: Version, m: Message, outcome: WorkOutcome, now: int)
    requires OwnedExtraction(v, m.taskId)
    ensures Ends(cfg, v.attempts, m, outcome, AfterClaim(cfg, Some(v), m, outcome, now))
  {
  }

  /**
   A delivery of the row's own task always leaves it decided, and by its outcome alone: given up
   when no attempt is left, otherwise ended as `Ends` says with one attempt more if it was queued.
   */
  lemma ChainDecides(cfg: Config, v: Version, m: Message, outcome: WorkOutcome, now: int)
    requires !Terminal(v) && (v.status.Extracting? ==> v.owner == Some(m.taskId))
    ensures var e := Chain(cfg, v, m, outcome, now);
            if v.status.Queued? && v.attempts > cfg.maxRetries then
              && e.version.Some? && FailedWith(e.version.value, RetryExhausted) && e.version.value.attempts == v.attempts
              && e.log == [MarkedFailed(RetryExhausted, v.attempts)] && e.sent.None?
            else Ends(cfg, v.attempts + (if v.status.Queued? then 1 else 0), m, outcome, e)
  {
    var claimed := ClaimEffect(cfg, Some(v), m, false, now);
    if claimed.next == Some(Working) {
      AfterClaimEnds(cfg, claimed.version.value, m, outcome, now);
    }
  }

  /** A step that only moves the delivery on is absorbed by the next one. */
  lemma PerformTwice(c: Cell, d: nat, first: Effect, second: Effect)
    requires d in c.deliveries && first.next.Some? && first.log == [] && first.sent.None? && !first.fault
    ensures Perform(Perform(c, d, first), d, second) == Perform(c, d, second)
  {
    var mid := Perform(c, d, first);
    assert c.audits + [] == c.audits;
    assert mid.deliveries - {d} == c.deliveries - {d};
    assert second.next.Some? ==>
        mid.deliveries[d := mid.deliveries[d].(stage := second.next.value)]
        == c.deliveries[d := c.deliveries[d].(stage := second.next.value)];
  }

  lemma RetryIsRun(cfg: Config, c: Cell, d: nat, code: ErrorCode, now: int) returns (actions: seq<Action>)
    requires d in c.deliveries && c.deliveries[d].stage == Retrying(code) && c.version.Some?
    requires OwnedExtraction(c.version.value, c.deliveries[d].message.taskId)
    ensures Runs(cfg, c, actions, now)
    ensures RunAll(cfg, c, actions, now) == Perform(c, d, AfterFailure(cfg, c.version, c.deliveries[d].message, code, now))
  {
    var m := c.deliveries[d].message;
    var handle := Worker(d, HandleRetry(false));
    var handled := RetryEffect(cfg, c.version, m, code, false);
    var c1 := Apply(cfg, c, handle, now);
    assert c1 == Perform(c, d, handled);
    var last := Worker(d, if handled.next == Some(Exhausting) then FailExhausted(false) else PublishRetry(true));
    var c2 := Apply(cfg, c1, last, now);
    PerformTwice(c, d, handled, React(cfg, c1.version, c1.deliveries[d], last.worker, now));
    assert Runs(cfg, c2, [], now);
    Prepend(cfg, c1, last, [], now);
    Prepend(cfg, c, handle, [last] + [], now);
    actions := [handle] + ([last] + []);
  }

  lemma WorkIsRun(cfg: Config, c: Cell, d: nat, outcome: WorkOutcome, now: int) returns (actions: seq<Action>)
    requires d in c.deliveries && c.deliveries[d].stage.Working? && c.version.Some?
    requires OwnedExtraction(c.version.value, c.deliveries[d].message.taskId)
    requires Allows(Working, FinishWork(outcome))
    ensures Runs(cfg, c, actions, now)
    ensures RunAll(cfg, c, actions, now) == Perform(c, d, AfterClaim(cfg, c.version, c.deliveries[d].message, outcome, now))
  {
    var m := c.deliveries[d].message;
    var finish := Worker(d, FinishWork(outcome));
    var worked := WorkEffect(c.version, m, outcome);
    var c1 := Apply(cfg, c, finish, now);
    assert c1 == Perform(c, d, worked);
    var rest: seq<Action> := [];
    if worked.next.Some? {
      rest := RetryIsRun(cfg, c1, d, RetryCode(outcome), now);
      PerformTwice(c, d, worked, AfterFailure(cfg, c1.version, m, RetryCode(outcome), now));
    } else {
      assert Runs(cfg, c1, [], now);
    }
    Prepend(cfg, c, finish, rest, now);
    actions := [finish] + rest;
  }

  /** The chain is a run: its reactions are protocol steps, taken one by one by the delivery that holds the lock. */
  lemma ChainIsRun(cfg: Config, c: Cell, d: nat, outcome: WorkOutcome, now: int) returns (actions: seq<Action>)
    requires d in c.deliveries && c.deliveries[d].stage.Locked? && c.version.Some?
    requires Allows(Working, FinishWork(outcome))
    ensures Runs(cfg, c, actions, now)
    ensures RunAll(cfg, c, actions, now)
            == Perform(c, d, Chain(cfg, c.version.value, c.deliveries[d].message, outcome, now))
  {
    var m := c.deliveries[d].message;
    var claim := Worker(d, ClaimWork(false));
    var claimed := ClaimEffect(cfg, c.version, m, false, now);
    var c1 := Apply(cfg, c, claim, now);
    assert c1 == Perform(c, d, claimed);
    var rest: seq<Action> := [];
    if claimed.next == Some(Working) {
      rest := WorkIsRun(cfg, c1, d, outcome, now);
      PerformTwice(c, d, claimed, AfterClaim(cfg, c1.version, m, outcome, now));
    } else {
      assert Runs(cfg, c1, [], now);
    }
    Prepend(cfg, c, claim, rest, now);
    actions := [claim] + rest;
  }

  /** The delivery that holds the lock, and the row it works on. */
  predicate Holds(c: Cell, d: nat, delivery: Delivery, row: Version) {
    c.lock == Some(d) && d in c.deliveries && c.deliveries[d] == delivery && c.version == Some(row)
  }

  predicate TakesStep(e: Event, v: nat, d: nat) {
    e.Act? && e.v == v && e.action.Worker? && e.action.d == d
  }

  lemma OtherDeliveryLeavesRow(cfg: Config, c: Cell, k: nat, a: WorkerAction, now: int, d: nat, delivery: Delivery,
                               row: Version)
    requires WorkerEnabled(c, k, a) && LockInv(c) && c.mishaps.lockLosses == 0
    requires Holds(c, d, delivery, row) && k != d
    ensures var c' := ApplyWorker(cfg, c, k, a, now); Holds(c', d, delivery, row) && c'.mishaps.lockLosses == 0
  {
    assert k in c.deliveries ==> c.deliveries[k].stage.Received?;
  }

  lemma OutboxLeavesRow(cfg: Config, c: Cell, a: RelayAction, now: int, d: nat, delivery: Delivery, row: Version)
    requires OutboxEnabled(cfg, c, a, now) && Holds(c, d, delivery, row)
    ensures var c' := ApplyOutbox(cfg, c, a, now); Holds(c', d, delivery, row) && c'.mishaps == c.mishaps
  {
  }

  lemma OthersLeaveRow(cfg: Config, c: Cell, a: Action, now: int, d: nat, delivery: Delivery, row: Version)
    requires Enabled(cfg, c, a, now) && LockInv(c) && c.mishaps.lockLosses == 0
    requires Holds(c, d, delivery, row) && !(a.Worker? && a.d == d)
    ensures Holds(Apply(cfg, c, a, now), d, delivery, row) && Apply(cfg, c, a, now).mishaps.lockLosses == 0
  {
    match a
    case Upload(u) =>
    case Outbox(r) => OutboxLeavesRow(cfg, c, r, now, d, delivery, row);
    case Broker(b) =>
    case Worker(k, w) => OtherDeliveryLeavesRow(cfg, c, k, w, now, d, delivery, row);
  }

  /** While the holder of the lock takes no step, nothing else that happens touches its row. */
  lemma {:induction false} RowWaitsForHolder(cfg: Config, s: System, v: nat, d: nat, delivery: Delivery, row: Version,
                                             run: seq<Event>)
    requires SystemInv(cfg, s) && v in s.cells && ValidRun(cfg, s, run)
    requires Holds(s.cells[v], d, delivery, row) && s.cells[v].mishaps.lockLosses == 0
    requires forall e :: e in run ==> !TakesStep(e, v, d)
    ensures var s' := After(cfg, s, run);
            && SystemInv(cfg, s') && v in s'.cells
            && Holds(s'.cells[v], d, delivery, row) && s'.cells[v].mishaps.lockLosses == 0
    decreases |run|
  {
    if run != [] {
      var e := run[0];
      assert e in run;
      EventKeepsInv(cfg, s, e);
      if e.Act? && e.v == v {
        OthersLeaveRow(cfg, s.cells[v], e.action, s.now, d, delivery, row);
      } else if e.Batch? && v in e.rows {
        OthersLeaveRow(cfg, s.cells[v], Outbox(e.rows[v]), s.now, d, delivery, row);
      }
      assert forall x :: x in run[1..] ==> x in run;
      RowWaitsForHolder(cfg, Step(cfg, s, e), v, d, delivery, row, run[1..]);
    }
  }

  /**
   Over every run: whatever happens between a delivery's claim and its end, while it holds the lock
   its own remaining steps end the row exactly as its outcome says.
   */
  lemma DeliveryEnds(cfg: Config, s: System, v: nat, d: nat, between: seq<Event>, outcome: WorkOutcome)
    returns (run: seq<Event>, e: Effect)
    requires Reached(cfg, s) && v in s.cells && s.cells[v].mishaps.lockLosses == 0
    requires d in s.cells[v].deliveries && s.cells[v].deliveries[d].stage.Working?
    requires ValidRun(cfg, s, between) && (forall x :: x in between ==> !TakesStep(x, v, d))
    requires Allows(Working, FinishWork(outcome))
    ensures var mid := After(cfg, s, between);
            && v in mid.cells && ValidRun(cfg, mid, run) && d in mid.cells[v].deliveries
            && v in After(cfg, mid, run).cells && After(cfg, mid, run).cells[v] == Perform(mid.cells[v], d, e)
            && s.cells[v].version.Some?
            && Ends(cfg, s.cells[v].version.value.attempts, s.cells[v].deliveries[d].message, outcome, e)
  {
    ReachedInv(cfg, s, v);
    var c := s.cells[v];
    RowWaitsForHolder(cfg, s, v, d, c.deliveries[d], c.version.value, between);
    var mid := After(cfg, s, between);
    var m, row := c.deliveries[d].message, c.version.value;
    var actions := WorkIsRun(cfg, mid.cells[v], d, outcome, mid.now);
    LiftToSystem(cfg, mid, v, actions);
    run, e := Events(v, actions), AfterClaim(cfg, Some(row), m, outcome, mid.now);
    AfterClaimEnds(cfg, row, m, outcome, mid.now);
  }

  /** What an upload leaves behind: everything together, or at most an object that could not be deleted. */
  predicate UploadLeaves(c: Cell, id: nat, intentId: nat, task: TaskId, now: int,
                         putWorks: bool, commitWorks: bool, deleteWorks: bool) {
    && c.id == id
    && c.stored == (putWorks && (commitWorks || !deleteWorks))
    && if putWorks && commitWorks then
         && c.version.Some? && c.version.value.status.Queued? && c.version.value.attempts == 0
         && c.version.value.owner.None?
         && c.intent.Some? && c.intent.value.id == intentId && c.intent.value.versionId == id
         && c.intent.value.taskId == task && c.taskId == Some(task) && Due(c.intent.value, now)
         && c.audits == [Uploaded]
       else c.version.None? && c.intent.None? && c.taskId.None? && c.audits == []
  }

  /** The upload path is a run of the protocol, whichever of its three calls fail. */
  lemma UploadIsRun(cfg: Config, id: nat, intentId: nat, task: TaskId, now: int,
                    putWorks: bool, commitWorks: bool, deleteWorks: bool) returns (actions: seq<Action>)
    requires task != ""
    ensures Runs(cfg, EmptyCell(id), actions, now)
    ensures UploadLeaves(RunAll(cfg, EmptyCell(id), actions, now), id, intentId, task, now,
                         putWorks, commitWorks, deleteWorks)
  {
    var c := EmptyCell(id);
    if !putWorks {
      assert Runs(cfg, c, [], now);
      return [];
    }
    var put := Upload(PutObject);
    var end := Upload(if commitWorks then CommitUpload(intentId, task) else AbortUpload(deleteWorks));
    var c1 := Apply(cfg, c, put, now);
    var c2 := Apply(cfg, c1, end, now);
    assert Runs(cfg, c2, [], now);
    Prepend(cfg, c1, end, [], now);
    Prepend(cfg, c, put, [end] + [], now);
    actions := [put] + ([end] + []);
    assert [] + [Uploaded] == [Uploaded];
  }

  datatype UploadError = StorageDown | PersistenceFailed

  class DocumentService {
    var objects: set<nat>               // storage keys; each is built from its version's fresh id
    var versions: map<nat, Version>
    var intents: map<nat, Intent>
    var uploads: seq<nat>               // document_uploaded audit events

    constructor ()
      ensures objects == {} && versions == map[] && intents == map[] && uploads == []
    {
      objects, versions, intents, uploads := {}, map[], map[], [];
    }

    /** Object first, then version, audit and intent in one commit; a failed commit takes the object back. */
    method CreateUpload(version: nat, intentId: nat, task: TaskId, now: int,
                        putWorks: bool, commitWorks: bool, deleteWorks: bool)
      returns (created: Result<nat, UploadError>)
      requires version !in objects && version !in versions && version !in intents
      modifies this
      ensures created == if !putWorks then Err(StorageDown) else if !commitWorks then Err(PersistenceFailed) else Ok(version)
      ensures created.Ok? ==>
        && objects == old(objects) + {version}
        && versions == old(versions)[version := NEW_VERSION]
        && intents == old(intents)[version := NewIntent(intentId, version, task, now)]
        && intents[version].versionId == version && Due(intents[version], now)
        && uploads == old(uploads) + [version]
      ensures created.Err? ==>
        && versions == old(versions) && intents == old(intents) && uploads == old(uploads)
        && objects == old(objects) + if putWorks && !deleteWorks then {version} else {}
      ensures forall v :: v in versions && (v in old(versions) ==> v in old(objects)) ==> v in objects
    {
      if !putWorks {
        return Err(StorageDown);
      }
      objects := objects + {version};
      if !commitWorks {
        if deleteWorks {
          objects := objects - {version};
        }
        return Err(PersistenceFailed);
      }
      versions := versions[version := NEW_VERSION];
      uploads := uploads + [version];
      intents := intents[version := NewIntent(intentId, version, task, now)];
      return Ok(version);
    }
  }
}
