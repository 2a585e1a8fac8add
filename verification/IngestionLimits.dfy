/** Runs that show the assumptions of the theorems are needed: each dropped one lets its promise fail. */
module IngestionLimits {
  import opened Base
  import opened DocumentRows
  import opened Relay
  import opened Ingestion
  import opened Protocol
  import opened ProtocolInvariant
  import opened WorkerInvariant
  import opened IngestionInvariant
  import opened IngestionSystem
  import opened IngestionTheorems
  import opened IngestionProgress

  const TASK: TaskId := "task"

  /** Some run on one version, all at one instant, leads from `c` to `c'`. */
  ghost predicate Leads(cfg: Config, c: Cell, c': Cell) {
    exists actions :: Runs(cfg, c, actions, 0) && RunAll(cfg, c, actions, 0) == c'
  }

  lemma LeadsBy(cfg: Config, c: Cell, a: Action, c': Cell)
    requires Enabled(cfg, c, a, 0) && Leads(cfg, Apply(cfg, c, a, 0), c')
    ensures Leads(cfg, c, c')
  {
    var rest :| Runs(cfg, Apply(cfg, c, a, 0), rest, 0) && RunAll(cfg, Apply(cfg, c, a, 0), rest, 0) == c';
    Prepend(cfg, c, a, rest, 0);
  }

  lemma LeadsNowhere(cfg: Config, c: Cell)
    ensures Leads(cfg, c, c)
  {
    assert Runs(cfg, c, [], 0);
  }

  lemma ReachedFromUpload(cfg: Config, c: Cell) returns (s: System)
    requires Leads(cfg, EmptyCell(0), c)
    ensures Reached(cfg, s) && 0 in s.cells && s.cells[0] == c
  {
    var actions :| Runs(cfg, EmptyCell(0), actions, 0) && RunAll(cfg, EmptyCell(0), actions, 0) == c;
    var s0 := System(0, map[]);
    var upload := NewUpload(0);
    LiftToSystem(cfg, Step(cfg, s0, upload), 0, actions);
    var run := [upload] + Events(0, actions);
    assert run[1..] == Events(0, actions);
    assert Initial(cfg, s0) && ValidRun(cfg, s0, run);
    s := After(cfg, s0, run);
  }

  /** A version between deliveries: queued, unlocked, `k` attempts on record, message `m` waiting. */
  predicate Idle(c: Cell, k: nat, m: Message) {
    && c.version.Some? && c.version.value.status.Queued? && c.version.value.attempts == k && c.version.value.owner.None?
    && c.lock.None? && c.deliveries == map[] && m in c.broker
  }

  /** The only delivery of the version, at some stage. */
  predicate Alone(c: Cell, m: Message, stage: Stage) {
    c.lock == Some(0) && c.deliveries == map[0 := Delivery(m, stage)]
  }

  function Committed(cfg: Config): Cell {
    ApplyUpload(ApplyUpload(EmptyCell(0), PutObject, 0), CommitUpload(0, TASK), 0)
  }

  lemma CommittedLeads(cfg: Config, c: Cell)
    requires Leads(cfg, Committed(cfg), c)
    ensures Leads(cfg, EmptyCell(0), c)
  {
    var stored := Apply(cfg, EmptyCell(0), Upload(PutObject), 0);
    LeadsBy(cfg, stored, Upload(CommitUpload(0, TASK)), c);
    LeadsBy(cfg, EmptyCell(0), Upload(PutObject), c);
  }

  lemma PublishUpload(cfg: Config) returns (c: Cell)
    requires cfg.relay.maxPublications >= 1 && cfg.relay.maxRecoveries >= 1
    ensures Idle(c, 0, Message(TASK, 0, 0)) && c.mishaps == Mishaps(0, 0, 0)
    ensures forall c' | Leads(cfg, c, c') :: Leads(cfg, EmptyCell(0), c')
  {
    var p := Publication(0, 0, TASK, 0, 0);
    var c1 := Committed(cfg);
    var c2 := Apply(cfg, c1, Outbox(ClaimIntent(0)), 0);
    assert p in c2.publications;
    c := Apply(cfg, c2, Outbox(PublishClaimed(p)), 0);
    forall c' | Leads(cfg, c, c') ensures Leads(cfg, EmptyCell(0), c') {
      LeadsBy(cfg, c2, Outbox(PublishClaimed(p)), c');
      LeadsBy(cfg, c1, Outbox(ClaimIntent(0)), c');
      CommittedLeads(cfg, c');
    }
  }

  lemma PickUp(cfg: Config, c: Cell, k: nat, m: Message) returns (c': Cell)
    requires Idle(c, k, m)
    ensures Alone(c', m, Locked) && c' == c.(deliveries := c'.deliveries, lock := c'.lock)
    ensures forall end | Leads(cfg, c', end) :: Leads(cfg, c, end)
  {
    var c1 := Apply(cfg, c, Worker(0, Receive(m)), 0);
    c' := Apply(cfg, c1, Worker(0, TryLock), 0);
    forall end | Leads(cfg, c', end) ensures Leads(cfg, c, end) {
      LeadsBy(cfg, c1, Worker(0, TryLock), end);
      LeadsBy(cfg, c, Worker(0, Receive(m)), end);
    }
  }

  /** The retry of a failed attempt goes out while the message is below its limit. */
  lemma HandBack(cfg: Config, c: Cell, r: nat, code: ErrorCode) returns (c': Cell)
    requires Alone(c, Message(TASK, r, 0), Retrying(code)) && r < cfg.maxRetries && c.version.Some?
    requires (c.version.value.status.Queued? && c.version.value.owner.None?) || OwnedExtraction(c.version.value, TASK)
    ensures Idle(c', c.version.value.attempts, Message(TASK, r + 1, 0)) && c'.mishaps == c.mishaps
    ensures forall end | Leads(cfg, c', end) :: Leads(cfg, c, end)
  {
    var c1 := Apply(cfg, c, Worker(0, HandleRetry(false)), 0);
    assert Alone(c1, Message(TASK, r, 0), Prepared);
    c' := Apply(cfg, c1, Worker(0, PublishRetry(true)), 0);
    forall end | Leads(cfg, c', end) ensures Leads(cfg, c, end) {
      LeadsBy(cfg, c1, Worker(0, PublishRetry(true)), end);
      LeadsBy(cfg, c, Worker(0, HandleRetry(false)), end);
    }
  }

  /** The attempt that claims the row and then finds the scanner down. */
  lemma FailedAttempt(cfg: Config, c: Cell, k: nat, r: nat) returns (c': Cell)
    requires Alone(c, Message(TASK, r, 0), Locked) && c.version.Some? && c.version.value.status.Queued? && c.version.value.attempts == k
    requires k < MaxAttempts(cfg)
    ensures Alone(c', Message(TASK, r, 0), Retrying(ScannerUnavailable)) && c'.mishaps == c.mishaps
    ensures c'.version.Some? && c'.version.value.attempts == k + 1 && OwnedExtraction(c'.version.value, TASK)
    ensures forall end | Leads(cfg, c', end) :: Leads(cfg, c, end)
  {
    var down := Worker(0, FinishWork(Unavailable(ScannerUnavailable)));
    var c1 := Apply(cfg, c, Worker(0, ClaimWork(false)), 0);
    assert Alone(c1, Message(TASK, r, 0), Working);
    c' := Apply(cfg, c1, down, 0);
    forall end | Leads(cfg, c', end) ensures Leads(cfg, c, end) {
      LeadsBy(cfg, c1, down, end);
      LeadsBy(cfg, c, Worker(0, ClaimWork(false)), end);
    }
  }

  lemma GiveUp(cfg: Config, c: Cell, r: nat, code: ErrorCode) returns (c': Cell)
    requires Alone(c, Message(TASK, r, 0), Retrying(code)) && r >= cfg.maxRetries && c.version.Some? && OwnedExtraction(c.version.value, TASK)
    ensures Leads(cfg, c, c') && c'.mishaps == c.mishaps
    ensures c'.version == Some(Fail(c.version.value, RetryExhausted))
  {
    var c1 := Apply(cfg, c, Worker(0, HandleRetry(false)), 0);
    assert Alone(c1, Message(TASK, r, 0), Exhausting);
    c' := Apply(cfg, c1, Worker(0, FailExhausted(false)), 0);
    LeadsNowhere(cfg, c');
    LeadsBy(cfg, c1, Worker(0, FailExhausted(false)), c');
    LeadsBy(cfg, c, Worker(0, HandleRetry(false)), c');
  }

  /** Once a message is one retry ahead, failing attempts keep it ahead until it gives up early. */
  lemma {:induction false} ClimbToFailure(cfg: Config, c: Cell, k: nat) returns (c': Cell)
    requires Idle(c, k, Message(TASK, k + 1, 0)) && k + 1 <= cfg.maxRetries
    ensures Leads(cfg, c, c') && c'.mishaps == c.mishaps
    ensures c'.version.Some? && c'.version.value.status.Failed? && c'.version.value.error == Some(RetryExhausted)
    ensures c'.version.value.attempts == cfg.maxRetries
    decreases cfg.maxRetries - k
  {
    var c1 := PickUp(cfg, c, k, Message(TASK, k + 1, 0));
    var c2 := FailedAttempt(cfg, c1, k, k + 1);
    if k + 1 == cfg.maxRetries {
      c' := GiveUp(cfg, c2, k + 1, ScannerUnavailable);
    } else {
      var c3 := HandBack(cfg, c2, k + 1, ScannerUnavailable);
      c' := ClimbToFailure(cfg, c3, k + 1);
    }
  }

  /**
   One refused worker claim is enough: under any policy that publishes and retries at all, a run
   with a single database fault gives a version up one attempt short of its budget.
   */
  lemma OneFaultCutsTheBudget(cfg: Config) returns (s: System)
    requires cfg.maxRetries >= 1 && cfg.relay.maxPublications >= 1 && cfg.relay.maxRecoveries >= 1
    ensures Reached(cfg, s) && 0 in s.cells && s.cells[0].mishaps == Mishaps(1, 0, 0)
    ensures var row := s.cells[0].version;
            && row.Some? && row.value.status.Failed? && row.value.error == Some(RetryExhausted)
            && row.value.attempts == cfg.maxRetries
  {
    var c := PublishUpload(cfg);
    var c1 := PickUp(cfg, c, 0, Message(TASK, 0, 0));
    var c2 := Apply(cfg, c1, Worker(0, ClaimWork(true)), 0);
    var c3 := HandBack(cfg, c2, 0, DatabaseUnavailable);
    var end := ClimbToFailure(cfg, c3, 0);
    LeadsBy(cfg, c1, Worker(0, ClaimWork(true)), end);
    s := ReachedFromUpload(cfg, end);
  }

  /** A delivery of another task has claimed the version; the relay's next look finds it so. */
  lemma ForeignClaimIsSeen(cfg: Config, c: Cell, m: Message) returns (c': Cell)
    requires Alone(c, m, Locked) && c.version == Some(NEW_VERSION) && c.ledger == NO_LEDGER
    requires c.intent == Some(NewIntent(0, 0, TASK, 0)) && m.taskId != TASK
    ensures Leads(cfg, c, c') && c'.mishaps == c.mishaps
    ensures c'.intent.Some? && c'.intent.value.lastError == Some(OwnershipAmbiguous)
  {
    var c1 := Apply(cfg, c, Worker(0, ClaimWork(false)), 0);
    assert c1.version.Some? && OwnedExtraction(c1.version.value, m.taskId);
    assert c1.intent == c.intent && c1.ledger == c.ledger && c1.mishaps == c.mishaps;
    SelectionMeans(cfg.relay, c1.intent.value, c1.version.value, 0, 0);
    ClaimMeans(cfg.relay, c1.intent.value, c1.version.value, 0, 0);
    c' := Apply(cfg, c1, Outbox(ClaimIntent(0)), 0);
    LeadsNowhere(cfg, c');
    LeadsBy(cfg, c1, Outbox(ClaimIntent(0)), c');
    LeadsBy(cfg, c, Worker(0, ClaimWork(false)), c');
  }

  /** One foreign message is enough to make ownership ambiguous, under every policy. */
  lemma ForeignMessageMakesAmbiguous(cfg: Config) returns (s: System)
    ensures Reached(cfg, s) && 0 in s.cells && s.cells[0].mishaps == Mishaps(0, 1, 0)
    ensures s.cells[0].intent.Some? && s.cells[0].intent.value.lastError == Some(OwnershipAmbiguous)
  {
    var m := Message("other", 0, 0);
    assert TASK != "other" by { assert |TASK| != |"other"|; }
    var c := Committed(cfg);
    var c1 := Apply(cfg, c, Broker(Inject(m)), 0);
    var c2 := PickUp(cfg, c1, 0, m);
    var end := ForeignClaimIsSeen(cfg, c2, m);
    LeadsBy(cfg, c, Broker(Inject(m)), end);
    CommittedLeads(cfg, end);
    s := ReachedFromUpload(cfg, end);
  }

  /** A queued version whose intent is due and has room, with its counters. */
  predicate RoomToPublish(cfg: Config, s: System, publishes: nat, recoveries: nat, published: bool) {
    && 0 in s.cells && s.cells[0].version == Some(NEW_VERSION) && s.cells[0].intent.Some?
    && var c := s.cells[0];
       var i := c.intent.value;
       && Due(i, s.now) && i.leaseToken.None? && i.recoveryGrants == 1 && c.ledger.grants == 1
       && i.publishAttempts == publishes && i.recoveryAttempts == recoveries && i.publishedAt.Some? == published
       && forall t :: t in c.ledger.issued ==> t < publishes
  }

  function Round(cfg: Config, s: System): (Publication, seq<Event>)
    requires 0 in s.cells && s.cells[0].intent.Some?
  {
    var i := s.cells[0].intent.value;
    var p := Publication(i.id, i.versionId, i.taskId, i.publishAttempts, 0);
    (p, [Act(0, Outbox(ClaimIntent(p.token))), Act(0, Outbox(FinishClaimed(p, true))),
         Tick(s.now + Seconds(cfg.relay.recoverySeconds))])
  }

  lemma RunPrepend(cfg: Config, s: System, e: Event, rest: seq<Event>)
    requires Possible(cfg, s, e) && ValidRun(cfg, Step(cfg, s, e), rest)
    ensures ValidRun(cfg, s, [e] + rest)
    ensures After(cfg, s, [e] + rest) == After(cfg, Step(cfg, s, e), rest)
  {
    assert ([e] + rest)[1..] == rest;
  }

  /** Claim, publish, finish, wait out the recovery delay. */
  lemma PublishRound(cfg: Config, s: System, publishes: nat, recoveries: nat, published: bool)
    requires RoomToPublish(cfg, s, publishes, recoveries, published) && cfg.relay.leaseSeconds >= 1
    requires !OutOfBudget(cfg.relay, s.cells[0].intent.value)
    ensures ValidRun(cfg, s, Round(cfg, s).1)
    ensures RoomToPublish(cfg, After(cfg, s, Round(cfg, s).1), publishes + 1,
                          recoveries + (if published then 1 else 0), true)
  {
    var (p, run) := Round(cfg, s);
    var c := s.cells[0];
    assert Claim(cfg.relay, c.intent.value, NEW_VERSION, s.now, p.token).1 == Published(p);
    assert p.token !in c.ledger.issued;
    var s1 := Step(cfg, s, run[0]);
    assert p in s1.cells[0].publications && HoldsLease(s1.cells[0].intent.value, p, s1.now);
    var s2 := Step(cfg, s1, run[1]);
    var s3 := Step(cfg, s2, run[2]);
    assert ValidRun(cfg, s3, []) && After(cfg, s3, []) == s3;
    RunPrepend(cfg, s2, run[2], []);
    RunPrepend(cfg, s1, run[1], [run[2]] + []);
    RunPrepend(cfg, s, run[0], [run[1]] + ([run[2]] + []));
    assert run == [run[0]] + ([run[1]] + ([run[2]] + []));
  }

  lemma {:induction false} RunConcat(cfg: Config, s: System, first: seq<Event>, second: seq<Event>)
    requires ValidRun(cfg, s, first) && ValidRun(cfg, After(cfg, s, first), second)
    ensures ValidRun(cfg, s, first + second)
    ensures After(cfg, s, first + second) == After(cfg, After(cfg, s, first), second)
    decreases |first|
  {
    if first == [] {
      assert first + second == second;
    } else {
      RunConcat(cfg, Step(cfg, s, first[0]), first[1..], second);
      assert (first + second)[1..] == first[1..] + second;
    }
  }

  /** A version whose very first selection found the recovery budget already used up. */
  lemma BornExhausted(cfg: Config) returns (s: System)
    requires cfg.relay.maxRecoveries == 0
    ensures Reached(cfg, s) && Possible(cfg, s, Act(0, Outbox(GrantRearm)))
    ensures s.cells[0].ledger.grants == 0 && s.cells[0].intent.Some? && s.cells[0].intent.value.publishAttempts == 0
    ensures RoomToPublish(cfg, Step(cfg, s, Act(0, Outbox(GrantRearm))), 0, 0, false)
  {
    var c := Committed(cfg);
    var end := Apply(cfg, c, Outbox(ClaimIntent(0)), 0);
    LeadsNowhere(cfg, end);
    LeadsBy(cfg, c, Outbox(ClaimIntent(0)), end);
    CommittedLeads(cfg, end);
    s := ReachedFromUpload(cfg, end);
    assert end.intent.value.unresolvedAt == Some(0);
  }

  /**
   Why one grant buys one publication only under a recoverable policy: with no recoveries allowed
   but publications allowed, a grant buys two before the intent is exhausted again.
   */
  lemma GrantBuysTwo(cfg: Config) returns (s: System, run: seq<Event>)
    requires !RecoverablePolicy(cfg) && cfg.relay.leaseSeconds >= 1
    ensures Reached(cfg, s) && Possible(cfg, s, Act(0, Outbox(GrantRearm)))
    ensures ValidRun(cfg, Step(cfg, s, Act(0, Outbox(GrantRearm))), run)
    ensures var later := After(cfg, Step(cfg, s, Act(0, Outbox(GrantRearm))), run);
            && ClaimsAt(later, 0, 2) && SelectionAt(cfg, later, 0, 2).Exhausted?
            && later.cells[0].ledger.grants == s.cells[0].ledger.grants + 1
            && s.cells[0].intent.Some?
            && later.cells[0].intent.value.publishAttempts == s.cells[0].intent.value.publishAttempts + 2
  {
    s := BornExhausted(cfg);
    var s1 := Step(cfg, s, Act(0, Outbox(GrantRearm)));
    PublishRound(cfg, s1, 0, 0, false);
    var s2 := After(cfg, s1, Round(cfg, s1).1);
    PublishRound(cfg, s2, 1, 0, true);
    RunConcat(cfg, s1, Round(cfg, s1).1, Round(cfg, s2).1);
    run := Round(cfg, s1).1 + Round(cfg, s2).1;
  }
}
