/** All versions together under one clock, and what holds over whole runs. */
module IngestionSystem {
  import opened Base
  import opened DocumentRows
  import opened Relay
  import opened Ingestion
  import opened Protocol
  import opened ProtocolInvariant
  import opened WorkerInvariant
  import opened IngestionInvariant

  datatype System = System(now: int, cells: map<nat, Cell>)

  datatype Event =
    | Tick(to: int)
    | NewUpload(v: nat)                          // an upload draws a fresh version id
    | Act(v: nat, action: Action)
    | Batch(rows: map<nat, RelayAction>)         // settle_terminal, cleanup, backfill

  predicate BatchAction(a: RelayAction) {
    a.SettleIntent? || a.RemoveIntent? || a.BackfillIntent?
  }

  predicate Possible(cfg: Config, s: System, e: Event) {
    match e
    case Tick(to) => s.now <= to
    case NewUpload(v) => v !in s.cells
    case Act(v, a) => v in s.cells && Enabled(cfg, s.cells[v], a, s.now)
    case Batch(rows) =>
      forall v :: v in rows ==>
        v in s.cells && BatchAction(rows[v]) && OutboxEnabled(cfg, s.cells[v], rows[v], s.now)
  }

  function Step(cfg: Config, s: System, e: Event): System
    requires Possible(cfg, s, e)
  {
    match e
    case Tick(to) => s.(now := to)
    case NewUpload(v) => s.(cells := s.cells[v := EmptyCell(v)])
    case Act(v, a) => s.(cells := s.cells[v := Apply(cfg, s.cells[v], a, s.now)])
    case Batch(rows) =>
      s.(cells := map v | v in s.cells ::
           if v in rows then ApplyOutbox(cfg, s.cells[v], rows[v], s.now) else s.cells[v])
  }

  predicate ValidRun(cfg: Config, s: System, run: seq<Event>)
    decreases |run|
  {
    run == [] || (Possible(cfg, s, run[0]) && ValidRun(cfg, Step(cfg, s, run[0]), run[1..]))
  }

  function After(cfg: Config, s: System, run: seq<Event>): System
    requires ValidRun(cfg, s, run)
    decreases |run|
  {
    if run == [] then s else After(cfg, Step(cfg, s, run[0]), run[1..])
  }

  /** Before the outbox went live: queued versions only, old producers and workers paused. */
  ghost predicate Initial(cfg: Config, s: System) {
    forall v :: v in s.cells ==>
      exists owner, attempts: nat, error ::
        s.cells[v] == LegacyCell(v, owner, attempts, error) && attempts <= MaxAttempts(cfg) && owner != Some("")
  }

  ghost predicate SystemInv(cfg: Config, s: System) {
    forall v :: v in s.cells ==> s.cells[v].id == v && CellInv(cfg, s.cells[v], s.now)
  }

  lemma InitialInv(cfg: Config, s: System)
    requires Initial(cfg, s)
    ensures SystemInv(cfg, s)
  {
    forall v | v in s.cells ensures s.cells[v].id == v && CellInv(cfg, s.cells[v], s.now) {
      var owner, attempts: nat, error :|
        s.cells[v] == LegacyCell(v, owner, attempts, error) && attempts <= MaxAttempts(cfg) && owner != Some("");
      LegacyCellInv(cfg, v, owner, attempts, error, s.now);
    }
  }

  /** One event changes a given cell by one action, or leaves it alone while the clock may move. */
  ghost predicate CellStep(cfg: Config, c: Cell, c': Cell, now: int) {
    c' == c || exists a :: Enabled(cfg, c, a, now) && c' == Apply(cfg, c, a, now)
  }

  lemma EventStepsCell(cfg: Config, s: System, e: Event, v: nat)
    requires Possible(cfg, s, e) && v in s.cells
    ensures v in Step(cfg, s, e).cells && CellStep(cfg, s.cells[v], Step(cfg, s, e).cells[v], s.now)
    ensures s.now <= Step(cfg, s, e).now
  {
    var c := s.cells[v];
    if e.Act? && e.v == v {
      assert Enabled(cfg, c, e.action, s.now);
    } else if e.Batch? && v in e.rows {
      assert Enabled(cfg, c, Outbox(e.rows[v]), s.now);
      assert Apply(cfg, c, Outbox(e.rows[v]), s.now) == ApplyOutbox(cfg, c, e.rows[v], s.now);
    }
  }

  lemma ActionKeepsId(cfg: Config, c: Cell, a: Action, now: int)
    requires Enabled(cfg, c, a, now)
    ensures Apply(cfg, c, a, now).id == c.id
  {
    if a.Worker? {
      var log := WorkerSteps(cfg, c, a.d, a.worker, now);
    }
  }

  lemma CellStepKeepsInv(cfg: Config, c: Cell, c': Cell, now: int)
    requires CellStep(cfg, c, c', now) && CellInv(cfg, c, now)
    ensures CellInv(cfg, c', now) && c'.id == c.id
  {
    if c' != c {
      var a :| Enabled(cfg, c, a, now) && c' == Apply(cfg, c, a, now);
      ActionKeepsInv(cfg, c, a, now);
      ActionKeepsId(cfg, c, a, now);
    }
  }

  lemma EventKeepsInv(cfg: Config, s: System, e: Event)
    requires Possible(cfg, s, e) && SystemInv(cfg, s)
    ensures SystemInv(cfg, Step(cfg, s, e))
  {
    var s' := Step(cfg, s, e);
    forall v | v in s'.cells ensures s'.cells[v].id == v && CellInv(cfg, s'.cells[v], s'.now) {
      if v in s.cells {
        EventStepsCell(cfg, s, e, v);
        CellStepKeepsInv(cfg, s.cells[v], s'.cells[v], s.now);
        TimePasses(cfg, s'.cells[v], s.now, s'.now);
      } else {
        EmptyCellInv(cfg, v, s'.now);
      }
    }
  }

  /** Safety over whole runs: the invariant holds of every version after every run. */
  lemma {:induction false} RunKeepsInv(cfg: Config, s: System, run: seq<Event>)
    requires ValidRun(cfg, s, run) && SystemInv(cfg, s)
    ensures SystemInv(cfg, After(cfg, s, run))
    decreases |run|
  {
    if run != [] {
      EventKeepsInv(cfg, s, run[0]);
      RunKeepsInv(cfg, Step(cfg, s, run[0]), run[1..]);
    }
  }

  // ------------------------------------------------------------------ what only ever grows

  predicate VersionGrows(v: Version, v': Version) {
    v.attempts <= v'.attempts && Recorded(v) <= Recorded(v') && (Terminal(v) ==> v' == v)
  }

  predicate LedgerGrows(l: Ledger, l': Ledger) {
    && l.selections <= l'.selections && l.publishes <= l'.publishes && l.grants <= l'.grants
    && l.issued <= l'.issued && l.dead <= l'.dead
    && (l.grants == l'.grants ==> l.publishesAtGrant == l'.publishesAtGrant)
  }

  predicate IntentGrows(i: Intent, i': Intent) {
    && i'.id == i.id && i'.taskId == i.taskId
    && (i.settledAt.Some? ==> i'.settledAt == i.settledAt)
    && (i.publishedAt.Some? ==> i'.publishedAt.Some? && i.publishedAt.value <= i'.publishedAt.value)
  }

  predicate Evolves(c: Cell, c': Cell) {
    && (c.version.Some? ==> c'.version.Some? && VersionGrows(c.version.value, c'.version.value))
    && c.audits <= c'.audits
    && LedgerGrows(c.ledger, c'.ledger)
    && (c.taskId.Some? ==> c'.taskId == c.taskId)
    && (c.taskId.Some? && c.intent.None? ==> c'.intent.None?)
    && (c.intent.Some? && c'.intent.Some? ==> IntentGrows(c.intent.value, c'.intent.value))
    && c.publications <= c'.publications
    && c.mishaps.faults <= c'.mishaps.faults
    && c.mishaps.foreign <= c'.mishaps.foreign
    && c.mishaps.lockLosses <= c'.mishaps.lockLosses
  }

  lemma EvolvesTransitive(c: Cell, c': Cell, c'': Cell)
    requires Evolves(c, c') && Evolves(c', c'')
    requires c'.taskId.Some? && c.intent.Some? && c'.intent.None? ==> c''.intent.None?
    requires c.intent.Some? ==> c.taskId.Some?
    ensures Evolves(c, c'')
  {
  }

  lemma ClaimEvolves(cfg: Config, c: Cell, token: Token, now: int)
    requires c.version.Some? && c.intent.Some? && Due(c.intent.value, now) && LedgerBound(cfg, c.ledger, c.version.value.attempts)
    ensures Evolves(c, ApplyClaim(cfg, c, token, now))
  {
  }

  lemma OutboxEvolves(cfg: Config, c: Cell, a: RelayAction, now: int)
    requires OutboxEnabled(cfg, c, a, now) && RowsInv(cfg, c, now)
    ensures Evolves(c, ApplyOutbox(cfg, c, a, now))
  {
    if a.ClaimIntent? {
      ClaimEvolves(cfg, c, a.token, now);
    }
  }

  lemma WorkerEvolves(cfg: Config, c: Cell, d: nat, a: WorkerAction, now: int)
    requires WorkerEnabled(c, d, a) && CellInv(cfg, c, now)
    ensures Evolves(c, ApplyWorker(cfg, c, d, a, now))
  {
    var log := WorkerSteps(cfg, c, d, a, now);
    if c.version.Some? {
      var c' := ApplyWorker(cfg, c, d, a, now);
      RowMovedGrows(cfg, TaskOf(c, d), c.version.value, c'.version.value, log, now);
    }
  }

  lemma UploadEvolves(cfg: Config, c: Cell, a: UploadAction, now: int)
    requires UploadEnabled(c, a) && CellInv(cfg, c, now)
    ensures Evolves(c, ApplyUpload(c, a, now))
  {
  }

  lemma BrokerEvolves(c: Cell, a: BrokerAction)
    ensures Evolves(c, ApplyBroker(c, a))
  {
  }

  lemma ActionEvolves(cfg: Config, c: Cell, a: Action, now: int)
    requires Enabled(cfg, c, a, now) && CellInv(cfg, c, now)
    ensures Evolves(c, Apply(cfg, c, a, now))
  {
    match a
    case Upload(u) => UploadEvolves(cfg, c, u, now);
    case Outbox(r) => OutboxEvolves(cfg, c, r, now);
    case Broker(b) => BrokerEvolves(c, b);
    case Worker(d, w) => WorkerEvolves(cfg, c, d, w, now);
  }

  lemma CellStepEvolves(cfg: Config, c: Cell, c': Cell, now: int)
    requires CellStep(cfg, c, c', now) && CellInv(cfg, c, now)
    ensures Evolves(c, c')
  {
    if c' != c {
      var a :| Enabled(cfg, c, a, now) && c' == Apply(cfg, c, a, now);
      ActionEvolves(cfg, c, a, now);
    }
  }

  lemma {:induction false} RunEvolves(cfg: Config, s: System, run: seq<Event>, v: nat)
    requires ValidRun(cfg, s, run) && SystemInv(cfg, s) && v in s.cells
    ensures v in After(cfg, s, run).cells && Evolves(s.cells[v], After(cfg, s, run).cells[v])
    ensures s.now <= After(cfg, s, run).now
    decreases |run|
  {
    if run != [] {
      var s' := Step(cfg, s, run[0]);
      EventStepsCell(cfg, s, run[0], v);
      CellStepEvolves(cfg, s.cells[v], s'.cells[v], s.now);
      EventKeepsInv(cfg, s, run[0]);
      RunEvolves(cfg, s', run[1..], v);
      EvolvesTransitive(s.cells[v], s'.cells[v], After(cfg, s, run).cells[v]);
    }
  }
}
