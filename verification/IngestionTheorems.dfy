/**
 The promises of durable ingestion, over every run: any interleaving of relays, workers, uploads
 and the operator, with lost and duplicated messages, dying workers and lost locks.
 */
module IngestionTheorems {
  import opened Base
  import opened DocumentRows
  import opened Relay
  import opened Ingestion
  import opened Protocol
  import opened ProtocolInvariant
  import opened WorkerInvariant
  import opened IngestionInvariant
  import opened IngestionSystem

  /** `s` is what some run of the whole system leads to. */
  ghost predicate Reached(cfg: Config, s: System) {
    exists s0, run :: Initial(cfg, s0) && ValidRun(cfg, s0, run) && s == After(cfg, s0, run)
  }

  lemma ReachedInv(cfg: Config, s: System, v: nat)
    requires Reached(cfg, s) && v in s.cells
    ensures SystemInv(cfg, s) && CellInv(cfg, s.cells[v], s.now)
  {
    var s0, run :| Initial(cfg, s0) && ValidRun(cfg, s0, run) && s == After(cfg, s0, run);
    InitialInv(cfg, s0);
    RunKeepsInv(cfg, s0, run);
  }

  // ------------------------------------------------------------------ outcome of a version

  /** Ready and failed are final, and exactly one terminal audit event says so, with the row's own code and count. */
  lemma TerminalIsFinal(cfg: Config, s: System, run: seq<Event>, v: nat)
    requires Reached(cfg, s) && ValidRun(cfg, s, run)
    requires v in s.cells && s.cells[v].version.Some?
    ensures var s' := After(cfg, s, run);
            && v in s'.cells && s'.cells[v].version.Some?
            && (Terminal(s.cells[v].version.value) ==> s'.cells[v].version == s.cells[v].version)
            && s.cells[v].audits <= s'.cells[v].audits
            && TerminalAudits(s'.cells[v].audits) == (if Terminal(s'.cells[v].version.value) then 1 else 0)
            && (forall e :: e in s'.cells[v].audits ==> Tells(e, s'.cells[v].version))
  {
    ReachedInv(cfg, s, v);
    RunKeepsInv(cfg, s, run);
    RunEvolves(cfg, s, run, v);
  }

  /**
   The two retry counters agree: no live message is ahead of the attempt count by more than the
   worker transactions the database refused, and a version is given up for exhausted retries only
   when the whole budget is spent.
   */
  lemma RetryBudgetHonoured(cfg: Config, s: System, v: nat)
    requires Reached(cfg, s) && v in s.cells && s.cells[v].version.Some? && s.cells[v].mishaps.foreign == 0
    ensures var c := s.cells[v];
            var row, faults := c.version.value, c.mishaps.faults;
            && row.attempts <= cfg.maxRetries + 1
            && (forall m :: m in c.broker ==> m.retries <= row.attempts + faults)
            && (row.status.Extracting? ==> forall m :: m in c.broker ==> m.retries <= row.attempts - 1 + faults)
            && (row.status.Failed? && row.error == Some(RetryExhausted) ==>
                  Max(1, cfg.maxRetries + 1 - faults) <= row.attempts <= cfg.maxRetries + 1)
  {
    ReachedInv(cfg, s, v);
  }

  /** Without foreign messages nobody but the intent's own task ever owns the version. */
  lemma OwnershipNeverAmbiguous(cfg: Config, s: System, v: nat, token: Token)
    requires Reached(cfg, s) && v in s.cells && s.cells[v].mishaps.foreign == 0
    requires s.cells[v].intent.Some?
    ensures var c := s.cells[v];
            && c.version.Some?
            && (c.version.value.owner.Some? ==> c.version.value.owner == Some(c.intent.value.taskId))
            && (c.version.value.status.Extracting? ==>
                  c.version.value.owner.Some? && c.version.value.startedAt.Some? && c.version.value.attempts >= 1)
            && c.intent.value.lastError != Some(OwnershipAmbiguous)
            && !Claim(cfg.relay, c.intent.value, c.version.value, s.now, token).1.Ambiguous?
  {
    ReachedInv(cfg, s, v);
  }

  /**
   Accepted work is never dropped: object stored, intent present and open until the end; cleanup
   cannot touch it and backfill cannot add a second intent, not even after cleanup took the first.
   */
  lemma NoLostWork(cfg: Config, s: System, v: nat)
    requires Reached(cfg, s) && v in s.cells && s.cells[v].version.Some?
    requires s.cells[v].uploaded || s.cells[v].taskId.Some?
    ensures var c := s.cells[v];
            && (c.uploaded ==> c.stored)
            && (!Terminal(c.version.value) ==> c.intent.Some? && c.intent.value.settledAt.None?)
            && (c.intent.Some? && c.intent.value.settledAt.Some? ==> Terminal(c.version.value))
            && (!Terminal(c.version.value) ==> !OutboxEnabled(cfg, c, RemoveIntent, s.now))
            && (forall id, task :: !OutboxEnabled(cfg, c, BackfillIntent(id, task), s.now))
  {
    ReachedInv(cfg, s, v);
  }

  // ------------------------------------------------------------------ the delivery lock

  /** As long as no lock connection broke, two deliveries of one version never work at once. */
  lemma DeliveriesExclude(cfg: Config, s: System, v: nat, d: nat, e: nat)
    requires Reached(cfg, s) && v in s.cells && s.cells[v].mishaps.lockLosses == 0
    requires d in s.cells[v].deliveries && e in s.cells[v].deliveries
    requires !s.cells[v].deliveries[d].stage.Received? && !s.cells[v].deliveries[e].stage.Received?
    ensures d == e
  {
    ReachedInv(cfg, s, v);
  }

  /** Under the lock a finished extraction always lands: it is never found stale at commit. */
  lemma ExtractionLands(cfg: Config, s: System, v: nat, d: nat, text: string)
    requires Reached(cfg, s) && v in s.cells && s.cells[v].mishaps.lockLosses == 0
    requires d in s.cells[v].deliveries && s.cells[v].deliveries[d].stage.Working?
    ensures var c' := Apply(cfg, s.cells[v], Worker(d, FinishWork(Extracted(text))), s.now);
            c'.version.Some? && c'.version.value.status.Ready? && c'.version.value.text == Some(text)
  {
    ReachedInv(cfg, s, v);
  }

  // ------------------------------------------------------------------ the relay

  /** Budgets of publications and recoveries; every grant left exactly one numbered audit event. */
  lemma BudgetsHold(cfg: Config, s: System, v: nat)
    requires Reached(cfg, s) && v in s.cells && s.cells[v].intent.Some?
    ensures var i := s.cells[v].intent.value;
            && i.recoveryAttempts <= i.publishAttempts <= cfg.relay.maxPublications + i.recoveryGrants
            && i.recoveryAttempts <= cfg.relay.maxRecoveries + i.recoveryGrants
            && i.recoveryGrants <= 3
            && GrantNumbers(s.cells[v].audits) == UpTo(i.recoveryGrants)
            && |s.cells[v].ledger.issued| == i.publishAttempts
  {
    ReachedInv(cfg, s, v);
  }

  /** Whatever the relay hands out or records is about this version and its one intent. */
  lemma PublicationsAreAddressed(cfg: Config, s: System, v: nat)
    requires Reached(cfg, s) && v in s.cells
    ensures var c := s.cells[v];
            && (c.intent.Some? ==> c.intent.value.versionId == v && c.taskId == Some(c.intent.value.taskId))
            && (forall p :: p in c.publications ==>
                  p.versionId == v && p.token in c.ledger.issued && (c.intent.Some? ==> p.intentId == c.intent.value.id))
  {
    ReachedInv(cfg, s, v);
  }

  /** What a lease is: token and deadline together, only on an open intent, and never a dead token. */
  lemma LeasesAreSound(cfg: Config, s: System, v: nat)
    requires Reached(cfg, s) && v in s.cells && s.cells[v].intent.Some?
    ensures var i, ledger := s.cells[v].intent.value, s.cells[v].ledger;
            && (i.leaseToken.Some? <==> i.leaseExpiresAt.Some?)
            && (i.leaseToken.Some? ==> i.settledAt.None? && i.unresolvedAt.None?)
            && !(i.settledAt.Some? && i.unresolvedAt.Some?)
            && (i.leaseToken.Some? ==> i.leaseToken.value in ledger.issued && i.leaseToken.value !in ledger.dead)
            && (i.unresolvedAt.Some? ==> i.lastError == Some(AttemptsExhausted) || i.lastError == Some(OwnershipAmbiguous))
  {
    ReachedInv(cfg, s, v);
  }

  function Selections(run: seq<Event>, v: nat): nat {
    if run == [] then 0
    else (if run[0].Act? && run[0].v == v && run[0].action.Outbox? && run[0].action.outbox.ClaimIntent? then 1 else 0)
         + Selections(run[1..], v)
  }

  function SelectionsSoFar(s: System, v: nat): nat {
    if v in s.cells then s.cells[v].ledger.selections else 0
  }

  lemma EventCountsSelection(cfg: Config, s: System, e: Event, v: nat)
    requires Possible(cfg, s, e)
    ensures SelectionsSoFar(Step(cfg, s, e), v) == SelectionsSoFar(s, v) + Selections([e], v)
  {
    assert [e][1..] == [];
    if e.Act? && e.v == v && e.action.Worker? {
      var log := WorkerSteps(cfg, s.cells[v], e.action.d, e.action.worker, s.now);
    }
  }

  lemma {:induction false} LedgerCountsSelections(cfg: Config, s: System, run: seq<Event>, v: nat)
    requires ValidRun(cfg, s, run)
    ensures SelectionsSoFar(After(cfg, s, run), v) == SelectionsSoFar(s, v) + Selections(run, v)
    decreases |run|
  {
    if run != [] {
      EventCountsSelection(cfg, s, run[0], v);
      assert [run[0]][1..] == [];
      LedgerCountsSelections(cfg, Step(cfg, s, run[0]), run[1..], v);
    }
  }

  /**
   The relay cannot spin: over a whole run it selects one intent at most once per publication,
   once per extraction it waited for, once per unresolved mark and once to settle it.
   */
  lemma SelectionsBounded(cfg: Config, s0: System, run: seq<Event>, v: nat)
    requires Initial(cfg, s0) && ValidRun(cfg, s0, run) && v in After(cfg, s0, run).cells
    ensures var c := After(cfg, s0, run).cells[v];
            var attempts := if c.version.Some? then c.version.value.attempts else 0;
            && Selections(run, v) <= (cfg.relay.maxPublications + c.ledger.grants) + attempts + (c.ledger.grants + 1) + 1
            && Selections(run, v) <= cfg.relay.maxPublications + cfg.maxRetries + 9
  {
    InitialInv(cfg, s0);
    RunKeepsInv(cfg, s0, run);
    LedgerCountsSelections(cfg, s0, run, v);
    assert SelectionsSoFar(s0, v) == 0;
  }

  predicate FinishesAt(cfg: Config, s: System, v: nat, p: Publication) {
    && v in s.cells && s.cells[v].intent.Some? && p in s.cells[v].publications
    && HoldsLease(s.cells[v].intent.value, p, s.now)
  }

  function Finishing(cfg: Config, s: System, v: nat, p: Publication, success: bool): System
    requires FinishesAt(cfg, s, v, p)
  {
    Step(cfg, s, Act(v, Outbox(FinishClaimed(p, success))))
  }

  predicate ClaimsAt(s: System, v: nat, token: Token) {
    && v in s.cells && s.cells[v].intent.Some? && s.cells[v].version.Some?
    && Due(s.cells[v].intent.value, s.now) && token !in s.cells[v].ledger.issued
  }

  function SelectionAt(cfg: Config, s: System, v: nat, token: Token): Selection
    requires ClaimsAt(s, v, token)
  {
    Claim(cfg.relay, s.cells[v].intent.value, s.cells[v].version.value, s.now, token).1
  }

  lemma DueAfterRecovery(cfg: Config, c: Cell, now: int)
    requires CellInv(cfg, c, now) && c.intent.Some? && Due(c.intent.value, now) && c.intent.value.publishedAt.Some?
    ensures now >= c.intent.value.publishedAt.value + Seconds(cfg.relay.recoverySeconds)
  {
  }

  lemma PublishesOverNoExtraction(policy: RelayPolicy, i: Intent, v: Version, now: int, token: Token)
    requires Claim(policy, i, v, now, token).1.Published? && v.status.Extracting?
    ensures v.startedAt.Some? && now >= v.startedAt.value + Seconds(policy.extractingSeconds)
  {
  }

  /**
   Spacing: after a publication was recorded as successful, whatever happens in between (other
   claims, failed publications, an operator rearm), the intent is not even selected again before
   the recovery delay is over, and no publication is handed out over a running extraction.
   */
  lemma RecoverySpacing(cfg: Config, s: System, v: nat, p: Publication, run: seq<Event>, token: Token)
    requires Reached(cfg, s) && FinishesAt(cfg, s, v, p)
    requires ValidRun(cfg, Finishing(cfg, s, v, p, true), run)
    requires ClaimsAt(After(cfg, Finishing(cfg, s, v, p, true), run), v, token)
    ensures var later := After(cfg, Finishing(cfg, s, v, p, true), run);
            && later.now >= s.now + Seconds(cfg.relay.recoverySeconds)
            && var row := later.cells[v].version.value;
               SelectionAt(cfg, later, v, token).Published? && row.status.Extracting? ==>
                 row.startedAt.Some? && later.now >= row.startedAt.value + Seconds(cfg.relay.extractingSeconds)
  {
    var mid := Finishing(cfg, s, v, p, true);
    ReachedInv(cfg, s, v);
    EventKeepsInv(cfg, s, Act(v, Outbox(FinishClaimed(p, true))));
    RunKeepsInv(cfg, mid, run);
    RunEvolves(cfg, mid, run, v);
    var later := After(cfg, mid, run);
    assert mid.cells[v].intent.value.publishedAt == Some(s.now);
    var c := later.cells[v];
    DueAfterRecovery(cfg, c, later.now);
    if SelectionAt(cfg, later, v, token).Published? && c.version.value.status.Extracting? {
      PublishesOverNoExtraction(cfg.relay, c.intent.value, c.version.value, later.now, token);
    }
  }

  /** Fencing: a token that finished once, or was overtaken by a later claim, never finishes again. */
  lemma TokenFinishesOnce(cfg: Config, s: System, v: nat, p: Publication, success: bool, run: seq<Event>)
    requires Reached(cfg, s) && FinishesAt(cfg, s, v, p)
    requires ValidRun(cfg, Finishing(cfg, s, v, p, success), run)
    ensures !FinishesAt(cfg, After(cfg, Finishing(cfg, s, v, p, success), run), v, p)
  {
    var mid := Finishing(cfg, s, v, p, success);
    ReachedInv(cfg, s, v);
    assert p.token in mid.cells[v].ledger.dead;
    EventKeepsInv(cfg, s, Act(v, Outbox(FinishClaimed(p, success))));
    DeadTokenStaysDead(cfg, mid, run, v, p);
  }

  lemma DeadTokenStaysDead(cfg: Config, s: System, run: seq<Event>, v: nat, p: Publication)
    requires SystemInv(cfg, s) && ValidRun(cfg, s, run) && v in s.cells && p.token in s.cells[v].ledger.dead
    ensures !FinishesAt(cfg, After(cfg, s, run), v, p)
  {
    RunKeepsInv(cfg, s, run);
    RunEvolves(cfg, s, run, v);
    var later := After(cfg, s, run);
    assert CellInv(cfg, later.cells[v], later.now);
  }

  lemma ClaimRetiresTokens(cfg: Config, c: Cell, token: Token, now: int)
    requires c.version.Some? && c.intent.Some?
    ensures ApplyClaim(cfg, c, token, now).ledger.dead == c.ledger.issued
  {
  }

  lemma OvertakenTokenIsFenced(cfg: Config, s: System, v: nat, p: Publication, token: Token, run: seq<Event>)
    requires Reached(cfg, s) && ClaimsAt(s, v, token) && p in s.cells[v].publications
    requires ValidRun(cfg, Step(cfg, s, Act(v, Outbox(ClaimIntent(token)))), run)
    ensures !FinishesAt(cfg, After(cfg, Step(cfg, s, Act(v, Outbox(ClaimIntent(token)))), run), v, p)
  {
    var mid := Step(cfg, s, Act(v, Outbox(ClaimIntent(token))));
    ReachedInv(cfg, s, v);
    EventKeepsInv(cfg, s, Act(v, Outbox(ClaimIntent(token))));
    ClaimRetiresTokens(cfg, s.cells[v], token, s.now);
    DeadTokenStaysDead(cfg, mid, run, v, p);
  }

  lemma ExhaustedAfterGrant(cfg: Config, c: Cell, now: int, token: Token)
    requires RecoverablePolicy(cfg) && CellInv(cfg, c, now) && c.intent.Some? && c.version.Some? && c.ledger.grants >= 1
    requires Claim(cfg.relay, c.intent.value, c.version.value, now, token).1.Exhausted?
    ensures c.intent.value.publishAttempts == c.ledger.publishesAtGrant + 1
  {
  }

  lemma GrantOnCell(cfg: Config, c: Cell, now: int)
    requires CellInv(cfg, c, now) && OutboxEnabled(cfg, c, GrantRearm, now)
    ensures var l := ApplyOutbox(cfg, c, GrantRearm, now).ledger;
            l.publishesAtGrant == c.intent.value.publishAttempts && l.grants == c.ledger.grants + 1
  {
  }

  lemma GrantRemembers(cfg: Config, s: System, v: nat)
    requires Reached(cfg, s) && Possible(cfg, s, Act(v, Outbox(GrantRearm)))
    ensures var mid := Step(cfg, s, Act(v, Outbox(GrantRearm)));
            && SystemInv(cfg, mid) && v in mid.cells && s.cells[v].intent.Some?
            && mid.cells[v].ledger.publishesAtGrant == s.cells[v].intent.value.publishAttempts
            && mid.cells[v].ledger.grants == s.cells[v].ledger.grants + 1
  {
    ReachedInv(cfg, s, v);
    GrantOnCell(cfg, s.cells[v], s.now);
    EventKeepsInv(cfg, s, Act(v, Outbox(GrantRearm)));
  }

  /**
   One grant buys one publication: if the intent runs out of budget again with no further grant,
   exactly one publication was handed out since the rearm.
   */
  lemma GrantBuysOnePublication(cfg: Config, s: System, v: nat, run: seq<Event>, token: Token)
    requires RecoverablePolicy(cfg)
    requires Reached(cfg, s) && Possible(cfg, s, Act(v, Outbox(GrantRearm)))
    requires ValidRun(cfg, Step(cfg, s, Act(v, Outbox(GrantRearm))), run)
    requires var later := After(cfg, Step(cfg, s, Act(v, Outbox(GrantRearm))), run);
             && ClaimsAt(later, v, token) && SelectionAt(cfg, later, v, token).Exhausted?
             && later.cells[v].ledger.grants == s.cells[v].ledger.grants + 1
    ensures var later := After(cfg, Step(cfg, s, Act(v, Outbox(GrantRearm))), run);
            later.cells[v].intent.value.publishAttempts == s.cells[v].intent.value.publishAttempts + 1
  {
    var mid := Step(cfg, s, Act(v, Outbox(GrantRearm)));
    GrantRemembers(cfg, s, v);
    RunKeepsInv(cfg, mid, run);
    RunEvolves(cfg, mid, run, v);
    var later := After(cfg, mid, run);
    ExhaustedAfterGrant(cfg, later.cells[v], later.now, token);
  }
}
