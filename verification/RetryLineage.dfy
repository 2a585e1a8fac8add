/** One publication and the retries that descend from it: how much of the retry budget it gets. */
module RetryLineage {
  import opened Base
  import opened DocumentRows
  import opened Relay
  import opened Ingestion
  import opened Protocol
  import opened ProtocolInvariant
  import opened WorkerInvariant
  import opened IngestionInvariant
  import opened IngestionSystem
  import opened IngestionTheorems

  /** `m` does not descend from `token`, or its retry number is in the range of that line. */
  predicate InLine(cfg: Config, m: Message, token: Token, start: nat) {
    m.origin == token ==> start <= m.retries <= Max(start, cfg.maxRetries)
  }

  ghost predicate LineInv(cfg: Config, c: Cell, token: Token, start: nat) {
    && token in c.ledger.issued && c.version.Some?
    && (c.mishaps.foreign == 0 ==>
          && (forall m :: m in c.broker ==> InLine(cfg, m, token, start))
          && (forall d :: d in c.deliveries ==> InLine(cfg, c.deliveries[d].message, token, start))
          && (forall p :: p in c.publications && p.token == token ==> p.retries == start))
  }

  /** A retry goes out only below the limit, one above the message it repeats. */
  lemma ReactionStaysInLine(cfg: Config, v: Version, d: Delivery, a: WorkerAction, now: int, faults: nat,
                            token: Token, start: nat)
    requires Allows(d.stage, a) && DeliveryBudget(cfg, v, d, faults) && InLine(cfg, d.message, token, start)
    ensures var e := React(cfg, Some(v), d, a, now);
            e.sent.Some? ==> InLine(cfg, e.sent.value, token, start) && e.sent.value.retries == d.message.retries + 1
  {
  }

  lemma PerformStaysInLine(cfg: Config, c: Cell, d: nat, e: Effect, token: Token, start: nat)
    requires d in c.deliveries && LineInv(cfg, c, token, start) && e.version.Some?
    requires c.mishaps.foreign == 0 && e.sent.Some? ==> InLine(cfg, e.sent.value, token, start)
    ensures LineInv(cfg, Perform(c, d, e), token, start)
  {
  }

  lemma WorkerStaysInLine(cfg: Config, c: Cell, d: nat, a: WorkerAction, now: int, token: Token, start: nat)
    requires WorkerEnabled(c, d, a) && RetryInv(cfg, c) && LineInv(cfg, c, token, start)
    ensures LineInv(cfg, ApplyWorker(cfg, c, d, a, now), token, start)
  {
    match a
    case Receive(_) =>
    case DropLock =>
    case TryLock => PerformStaysInLine(cfg, c, d, Stay(c.version, if c.lock.None? then Some(Locked) else None), token, start);
    case _ =>
      ReactionCommitsRow(cfg, c.version, c.deliveries[d], a, now);
      if c.mishaps.foreign == 0 {
        ReactionStaysInLine(cfg, c.version.value, c.deliveries[d], a, now, c.mishaps.faults, token, start);
      }
      PerformStaysInLine(cfg, c, d, React(cfg, c.version, c.deliveries[d], a, now), token, start);
  }

  lemma OutboxStaysInLine(cfg: Config, c: Cell, a: RelayAction, now: int, token: Token, start: nat)
    requires OutboxEnabled(cfg, c, a, now) && CellInv(cfg, c, now) && LineInv(cfg, c, token, start)
    ensures LineInv(cfg, ApplyOutbox(cfg, c, a, now), token, start)
  {
    if a.ClaimIntent? {
      ClaimSteps(cfg, c, a.token, now);
    }
    if a.PublishClaimed? {
      assert InLine(cfg, Message(a.publication.taskId, a.publication.retries, a.publication.token), token, start)
          || c.mishaps.foreign > 0;
    }
  }

  lemma BrokerStaysInLine(cfg: Config, c: Cell, a: BrokerAction, token: Token, start: nat)
    requires BrokerEnabled(c, a) && LineInv(cfg, c, token, start)
    ensures LineInv(cfg, ApplyBroker(c, a), token, start)
  {
  }

  /** Uploading is over once there is a version. */
  lemma UploadIsOver(c: Cell, a: UploadAction)
    requires c.version.Some?
    ensures !UploadEnabled(c, a)
  {
  }

  lemma ActionStaysInLine(cfg: Config, c: Cell, a: Action, now: int, token: Token, start: nat)
    requires Enabled(cfg, c, a, now) && CellInv(cfg, c, now) && LineInv(cfg, c, token, start)
    ensures LineInv(cfg, Apply(cfg, c, a, now), token, start)
  {
    match a
    case Upload(u) => UploadIsOver(c, u);
    case Outbox(r) => OutboxStaysInLine(cfg, c, r, now, token, start);
    case Broker(b) => BrokerStaysInLine(cfg, c, b, token, start);
    case Worker(d, w) => WorkerStaysInLine(cfg, c, d, w, now, token, start);
  }

  lemma {:induction false} RunStaysInLine(cfg: Config, s: System, run: seq<Event>, v: nat, token: Token, start: nat)
    requires ValidRun(cfg, s, run) && SystemInv(cfg, s) && v in s.cells && LineInv(cfg, s.cells[v], token, start)
    ensures v in After(cfg, s, run).cells && LineInv(cfg, After(cfg, s, run).cells[v], token, start)
    decreases |run|
  {
    if run != [] {
      var s' := Step(cfg, s, run[0]);
      EventStepsCell(cfg, s, run[0], v);
      EventKeepsInv(cfg, s, run[0]);
      if s'.cells[v] != s.cells[v] {
        var a :| Enabled(cfg, s.cells[v], a, s.now) && s'.cells[v] == Apply(cfg, s.cells[v], a, s.now);
        ActionStaysInLine(cfg, s.cells[v], a, s.now, token, start);
      }
      RunStaysInLine(cfg, s', run[1..], v, token, start);
    }
  }

  lemma ClaimStartsLine(cfg: Config, c: Cell, token: Token, now: int)
    requires CellInv(cfg, c, now) && c.version.Some? && c.intent.Some? && token !in c.ledger.issued
    requires Claim(cfg.relay, c.intent.value, c.version.value, now, token).1.Published?
    ensures Recorded(c.version.value) >= 0
    ensures LineInv(cfg, ApplyClaim(cfg, c, token, now), token, Recorded(c.version.value))
  {
    PublicationResumes(cfg, c.intent.value, c.version.value, now, token);
  }

  function Claimed(cfg: Config, s: System, v: nat, token: Token): System
    requires ClaimsAt(s, v, token)
  {
    Step(cfg, s, Act(v, Outbox(ClaimIntent(token))))
  }

  lemma LineStarts(cfg: Config, s: System, v: nat, token: Token) returns (start: nat)
    requires SystemInv(cfg, s) && ClaimsAt(s, v, token) && SelectionAt(cfg, s, v, token).Published?
    ensures start == Recorded(s.cells[v].version.value) == SelectionAt(cfg, s, v, token).publication.retries
    ensures var mid := Claimed(cfg, s, v, token);
            SystemInv(cfg, mid) && v in mid.cells && LineInv(cfg, mid.cells[v], token, start)
  {
    EventKeepsInv(cfg, s, Act(v, Outbox(ClaimIntent(token))));
    PublicationResumes(cfg, s.cells[v].intent.value, s.cells[v].version.value, s.now, token);
    ClaimStartsLine(cfg, s.cells[v], token, s.now);
    start := Recorded(s.cells[v].version.value);
  }

  lemma LineMeans(cfg: Config, c: Cell, token: Token, start: nat)
    requires LineInv(cfg, c, token, start) && c.mishaps.foreign == 0
    ensures var left := Max(0, cfg.maxRetries - start);
            && (forall m :: m in c.broker && m.origin == token ==> 0 <= m.retries - start <= left)
            && (forall d :: d in c.deliveries && c.deliveries[d].message.origin == token ==>
                  0 <= c.deliveries[d].message.retries - start <= left)
  {
    assert forall m :: m in c.broker ==> InLine(cfg, m, token, start);
    assert forall d :: d in c.deliveries ==> InLine(cfg, c.deliveries[d].message, token, start);
  }

  /**
   A relay publication never resets the retry budget: it starts at the attempts on record when it
   was claimed, and over every run without foreign messages no message or delivery that descends
   from it uses more than what was then left.
   */
  lemma PublicationGetsTheRest(cfg: Config, s: System, v: nat, token: Token, run: seq<Event>)
    requires Reached(cfg, s) && ClaimsAt(s, v, token) && SelectionAt(cfg, s, v, token).Published?
    requires ValidRun(cfg, Claimed(cfg, s, v, token), run)
    requires v in After(cfg, Claimed(cfg, s, v, token), run).cells
    requires After(cfg, Claimed(cfg, s, v, token), run).cells[v].mishaps.foreign == 0
    ensures var row := s.cells[v].version.value;
            var start := Recorded(row);
            var left := Max(0, cfg.maxRetries - start);
            var later := After(cfg, Claimed(cfg, s, v, token), run).cells[v];
            && start == row.attempts - (if row.status.Extracting? then 1 else 0) >= 0
            && SelectionAt(cfg, s, v, token).publication.retries == start
            && (forall m :: m in later.broker && m.origin == token ==> 0 <= m.retries - start <= left)
            && (forall d :: d in later.deliveries && later.deliveries[d].message.origin == token ==>
                  0 <= later.deliveries[d].message.retries - start <= left)
  {
    ReachedInv(cfg, s, v);
    var start := LineStarts(cfg, s, v, token);
    RunStaysInLine(cfg, Claimed(cfg, s, v, token), run, v, token, start);
    var later := After(cfg, Claimed(cfg, s, v, token), run).cells[v];
    LineMeans(cfg, later, token, start);
  }
}
