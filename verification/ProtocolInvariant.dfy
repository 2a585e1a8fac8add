/** The inductive invariant of the ingestion protocol, one concern at a time. */
module ProtocolInvariant {
  import opened Base
  import opened DocumentRows
  import opened Relay
  import opened Ingestion
  import opened Protocol

  // ------------------------------------------------------------------ audit trail

  predicate IsTerminalAudit(e: AuditEvent) {
    e.MarkedReady? || e.MarkedFailed?
  }

  function TerminalAudits(audits: seq<AuditEvent>): nat {
    if audits == [] then 0
    else TerminalAudits(audits[..|audits| - 1]) + (if IsTerminalAudit(audits[|audits| - 1]) then 1 else 0)
  }

  /** The grant numbers of the rearm events, oldest first. */
  function GrantNumbers(audits: seq<AuditEvent>): seq<nat> {
    if audits == [] then []
    else
      var last := audits[|audits| - 1];
      GrantNumbers(audits[..|audits| - 1]) + (if last.Rearmed? then [last.grant] else [])
  }

  function UpTo(n: nat): seq<nat> {
    if n == 0 then [] else UpTo(n - 1) + [n]
  }

  lemma AuditAppended(audits: seq<AuditEvent>, e: AuditEvent)
    ensures TerminalAudits(audits + [e]) == TerminalAudits(audits) + (if IsTerminalAudit(e) then 1 else 0)
    ensures GrantNumbers(audits + [e]) == GrantNumbers(audits) + (if e.Rearmed? then [e.grant] else [])
  {
    assert (audits + [e])[..|audits|] == audits;
  }

  // ------------------------------------------------------------------ the version row

  /** Attempts whose retry number a message may already carry. It never decreases. */
  function Recorded(v: Version): int {
    v.attempts - (if v.status.Extracting? then 1 else 0)
  }

  predicate VersionShape(cfg: Config, v: Version, now: int) {
    && (v.status.Extracting? ==> v.owner.Some? && v.startedAt.Some? && v.startedAt.value <= now && v.attempts >= 1)
    && (!v.status.Extracting? ==> v.startedAt.None?)
    && (Terminal(v) ==> v.owner.None?)
    && v.attempts <= MaxAttempts(cfg)
    && (v.status.Ready? <==> v.text.Some?)
    && (v.status.Failed? ==> v.error.Some?)
  }

  /** A terminal event says what the row says: the same end, the same code, count and length. */
  predicate Tells(e: AuditEvent, v: Option<Version>) {
    match e
    case MarkedReady(attempts, characters) =>
      && v.Some? && v.value.status.Ready? && v.value.attempts == attempts
      && v.value.text.Some? && |v.value.text.value| == characters
    case MarkedFailed(code, attempts) =>
      v.Some? && v.value.status.Failed? && v.value.attempts == attempts && v.value.error == Some(code)
    case _ => true
  }

  predicate AuditShape(cfg: Config, v: Option<Version>, audits: seq<AuditEvent>, grants: nat) {
    && (forall e :: e in audits ==> Tells(e, v))
    && TerminalAudits(audits) == (if v.Some? && Terminal(v.value) then 1 else 0)
    && GrantNumbers(audits) == UpTo(grants)
  }

  /** The only ways a worker changes the row, with the audit events of the same commit. */
  predicate RowMoved(cfg: Config, task: TaskId, v: Version, v': Version, log: seq<AuditEvent>, now: int) {
    || (v' == v && log == [])
    || (&& v.status.Queued? && v.attempts < MaxAttempts(cfg) && log == []
        && v' == v.(status := Extracting, owner := Some(task), attempts := v.attempts + 1, error := None,
                    startedAt := Some(now)))
    || (&& v.status.Queued? && v.attempts >= MaxAttempts(cfg) && log == [MarkedFailed(RetryExhausted, v.attempts)]
        && v' == Fail(v, RetryExhausted))
    || (&& OwnedExtraction(v, task) && log == [] && v'.error.Some?
        && v' == v.(status := Queued, owner := None, startedAt := None, error := v'.error))
    || (&& OwnedExtraction(v, task) && v'.text.Some? && log == [MarkedReady(v.attempts, |v'.text.value|)]
        && v' == v.(status := Ready, text := v'.text, error := None, owner := None, startedAt := None))
    || (&& OwnedExtraction(v, task) && v'.error.Some? && log == [MarkedFailed(v'.error.value, v.attempts)]
        && v' == Fail(v, v'.error.value))
  }

  lemma RowMovedGrows(cfg: Config, task: TaskId, v: Version, v': Version, log: seq<AuditEvent>, now: int)
    requires RowMoved(cfg, task, v, v', log, now)
    ensures Recorded(v) <= Recorded(v') && v.attempts <= v'.attempts
    ensures Terminal(v) ==> v' == v && log == []
  {
  }

  lemma RowMovedKeepsShape(cfg: Config, task: TaskId, v: Version, v': Version, log: seq<AuditEvent>,
                           audits: seq<AuditEvent>, grants: nat, now: int)
    requires RowMoved(cfg, task, v, v', log, now)
    requires VersionShape(cfg, v, now) && AuditShape(cfg, Some(v), audits, grants)
    ensures VersionShape(cfg, v', now) && AuditShape(cfg, Some(v'), audits + log, grants)
  {
    if log == [] {
      assert audits + log == audits;
    } else {
      AuditAppended(audits, log[0]);
    }
  }

  // ------------------------------------------------------------------ the intent row

  predicate IntentShape(i: Intent, v: Version) {
    && (i.leaseToken.Some? <==> i.leaseExpiresAt.Some?)
    && (i.leaseToken.Some? ==> i.settledAt.None? && i.unresolvedAt.None?)
    && !(i.settledAt.Some? && i.unresolvedAt.Some?)
    && (i.settledAt.Some? ==> Terminal(v))
    && (i.unresolvedAt.Some? <==> i.lastError == Some(AttemptsExhausted) || i.lastError == Some(OwnershipAmbiguous))
  }

  predicate Budgets(cfg: Config, i: Intent, l: Ledger) {
    && i.recoveryAttempts <= i.publishAttempts <= cfg.relay.maxPublications + i.recoveryGrants
    && i.recoveryAttempts <= cfg.relay.maxRecoveries + i.recoveryGrants
    && (i.recoveryAttempts > 0 ==> i.publishedAt.Some?)
    && (i.publishedAt.Some? ==> i.publishAttempts > 0)
    && (i.lastError == Some(AttemptsExhausted) ==> OutOfBudget(cfg.relay, i))
    && l.publishes == i.publishAttempts
    && l.grants == i.recoveryGrants
    && l.marks <= l.grants + (if i.unresolvedAt.Some? || i.settledAt.Some? then 1 else 0)
    && l.settles <= (if i.settledAt.Some? then 1 else 0)
  }

  /** One of the two budgets is used up to within `room`. */
  predicate NearLimit(cfg: Config, i: Intent, room: nat) {
    || i.publishAttempts + room == cfg.relay.maxPublications + i.recoveryGrants
    || (i.recoveryAttempts + room == cfg.relay.maxRecoveries + i.recoveryGrants && i.publishedAt.Some?)
  }

  /** Recoveries may be exhausted before the first publication only if none is allowed at all. */
  predicate RecoverablePolicy(cfg: Config) {
    cfg.relay.maxRecoveries >= 1 || cfg.relay.maxPublications == 0
  }

  /** After a grant there is room for one publication, and after that publication for none. */
  predicate GrantSpent(cfg: Config, i: Intent, l: Ledger) {
    RecoverablePolicy(cfg) && l.grants >= 1 ==>
      || (l.publishes == l.publishesAtGrant && !OutOfBudget(cfg.relay, i) && NearLimit(cfg, i, 1))
      || (l.publishes == l.publishesAtGrant + 1 && NearLimit(cfg, i, 0))
  }

  /** The ledger alone: it outlives the intent row. */
  predicate LedgerBound(cfg: Config, l: Ledger, attempts: nat) {
    && l.selections == l.publishes + l.defers + l.marks + l.settles
    && l.publishes <= cfg.relay.maxPublications + l.grants
    && l.defers <= l.lastDefer <= attempts
    && l.marks <= l.grants + 1
    && l.settles <= 1
    && l.grants <= MAX_GRANTS
    && l.dead <= l.issued
    && |l.issued| == l.publishes
  }

  predicate Waiting(i: Intent) {
    i.leaseToken.Some? || i.unresolvedAt.Some?
  }

  /** Neither the recovery delay nor a running extraction is ever cut short. */
  predicate Timing(cfg: Config, i: Intent, v: Version, l: Ledger, now: int) {
    && (i.publishedAt.Some? ==>
          var clear := i.publishedAt.value + Seconds(cfg.relay.recoverySeconds);
          i.publishedAt.value <= now && clear <= i.availableAt && (Waiting(i) ==> clear <= now))
    && (v.status.Extracting? && v.startedAt.Some? && l.lastDefer == v.attempts ==>
          var clear := v.startedAt.value + Seconds(cfg.relay.extractingSeconds);
          clear <= i.availableAt && (Waiting(i) ==> clear <= now))
  }

  /** The current token is the only one alive. */
  predicate Tokens(i: Intent, l: Ledger) {
    if i.leaseToken.Some?
    then l.issued == l.dead + {i.leaseToken.value} && i.leaseToken.value !in l.dead
    else l.issued == l.dead
  }

  predicate IntentInv(cfg: Config, i: Intent, v: Version, l: Ledger, now: int) {
    && IntentShape(i, v)
    && Budgets(cfg, i, l)
    && GrantSpent(cfg, i, l)
    && LedgerBound(cfg, l, v.attempts)
    && Timing(cfg, i, v, l, now)
    && Tokens(i, l)
  }

  lemma IntentBorn(cfg: Config, id: nat, versionId: nat, task: TaskId, v: Version, now: int)
    requires v.status.Queued?
    ensures IntentInv(cfg, NewIntent(id, versionId, task, now), v, NO_LEDGER, now)
  {
  }

  /** A recovered message resumes the retry budget where the version row left it. */
  lemma PublicationResumes(cfg: Config, i: Intent, v: Version, now: int, token: Token)
    requires VersionShape(cfg, v, now)
    ensures var s := Claim(cfg.relay, i, v, now, token).1;
            s.Published? ==>
              && s.publication.retries == Recorded(v) && s.publication.token == token
              && s.publication.taskId == i.taskId && s.publication.intentId == i.id
              && s.publication.versionId == i.versionId
  {
  }

  /** What one claim does to the cell, apart from the times on the row and the ledger's counters. */
  predicate ClaimStep(cfg: Config, c: Cell, c': Cell, token: Token) {
    && c.version.Some? && c.intent.Some? && c'.intent.Some?
    && c' == c.(intent := c'.intent, publications := c'.publications, ledger := c'.ledger)
    && c'.intent.value.taskId == c.intent.value.taskId && c'.intent.value.id == c.intent.value.id
    && c'.intent.value.versionId == c.intent.value.versionId
    && (c'.intent.value.settledAt.Some? ==> c.intent.value.settledAt.Some? || Terminal(c.version.value))
    && (c'.intent.value.lastError == Some(OwnershipAmbiguous) ==>
          || c.intent.value.lastError == Some(OwnershipAmbiguous)
          || (c.version.value.owner.Some? && c.version.value.owner.value != c.intent.value.taskId)
          || (c.version.value.status.Extracting? && (c.version.value.owner.None? || c.version.value.startedAt.None?)))
    && c.ledger.issued <= c'.ledger.issued
    && (c'.publications == c.publications
        || (&& token in c'.ledger.issued
            && c'.publications == c.publications +
               {Publication(c.intent.value.id, c.intent.value.versionId, c.intent.value.taskId, token,
                            if Recorded(c.version.value) > 0 then Recorded(c.version.value) else 0)}))
  }

  lemma ClaimSteps(cfg: Config, c: Cell, token: Token, now: int)
    requires c.version.Some? && c.intent.Some? && VersionShape(cfg, c.version.value, now)
    ensures ClaimStep(cfg, c, ApplyClaim(cfg, c, token, now), token)
  {
    PublicationResumes(cfg, c.intent.value, c.version.value, now, token);
  }

  lemma ClaimKeepsShape(cfg: Config, i: Intent, v: Version, l: Ledger, now: int, token: Token)
    requires Due(i, now) && IntentInv(cfg, i, v, l, now) && VersionShape(cfg, v, now)
    ensures var (i', s) := Claim(cfg.relay, i, v, now, token);
            var l' := Selected(l, s, v.attempts, token);
            IntentShape(i', v) && Budgets(cfg, i', l') && GrantSpent(cfg, i', l')
  {
  }

  lemma ClaimKeepsTiming(cfg: Config, i: Intent, v: Version, l: Ledger, now: int, token: Token)
    requires Due(i, now) && Timing(cfg, i, v, l, now) && VersionShape(cfg, v, now)
    ensures var (i', s) := Claim(cfg.relay, i, v, now, token);
            Timing(cfg, i', v, Selected(l, s, v.attempts, token), now)
  {
  }

  /** A wait is counted at most once per attempt, because the intent is not due again during it. */
  lemma WaitsOncePerAttempt(cfg: Config, i: Intent, v: Version, l: Ledger, now: int, token: Token)
    requires Due(i, now) && Timing(cfg, i, v, l, now) && LedgerBound(cfg, l, v.attempts)
    ensures Claim(cfg.relay, i, v, now, token).1.Deferred? ==> l.lastDefer < v.attempts
  {
  }

  lemma ClaimLeases(cfg: Config, i: Intent, v: Version, now: int, token: Token)
    ensures var (i', s) := Claim(cfg.relay, i, v, now, token);
            i'.leaseToken == if s.Published? then Some(token) else None
  {
  }

  lemma FreshToken(issued: set<Token>, token: Token)
    requires token !in issued
    ensures |issued + {token}| == |issued| + 1
  {
  }

  /** Only a publication hands out a token, and only the fresh one is alive after it. */
  lemma ClaimKeepsTokens(cfg: Config, i: Intent, v: Version, l: Ledger, now: int, token: Token)
    requires token !in l.issued && |l.issued| == l.publishes
    ensures var (i', s) := Claim(cfg.relay, i, v, now, token);
            var l' := Selected(l, s, v.attempts, token);
            Tokens(i', l') && l'.dead <= l'.issued && |l'.issued| == l'.publishes
  {
    ClaimLeases(cfg, i, v, now, token);
    FreshToken(l.issued, token);
  }

  lemma ClaimKeepsLedger(cfg: Config, i: Intent, v: Version, l: Ledger, now: int, token: Token)
    requires Due(i, now) && Timing(cfg, i, v, l, now) && Budgets(cfg, i, l) && LedgerBound(cfg, l, v.attempts)
    requires token !in l.issued
    ensures var (i', s) := Claim(cfg.relay, i, v, now, token);
            var l' := Selected(l, s, v.attempts, token);
            LedgerBound(cfg, l', v.attempts) && Tokens(i', l')
  {
    WaitsOncePerAttempt(cfg, i, v, l, now, token);
    ClaimKeepsTokens(cfg, i, v, l, now, token);
  }

  lemma BackoffPositive(n: nat)
    ensures PublishBackoff(n) >= 1
  {
    Pow2Positive(Min(n, 6));
  }

  lemma Pow2Positive(n: nat)
    ensures Pow2(n) >= 1
  {
  }

  lemma FinishKeepsIntent(cfg: Config, i: Intent, v: Version, l: Ledger, now: int, success: bool)
    requires IntentInv(cfg, i, v, l, now) && i.leaseToken.Some?
    ensures IntentInv(cfg, Finish(cfg.relay, i, now, success), v, Retired(l), now)
  {
    BackoffPositive(i.publishAttempts);
  }

  lemma SettleKeepsIntent(cfg: Config, i: Intent, v: Version, l: Ledger, now: int)
    requires IntentInv(cfg, i, v, l, now) && Settleable(i, v, now)
    ensures IntentInv(cfg, Settle(i, now), v, Retired(l), now)
  {
  }

  lemma RearmKeepsIntent(cfg: Config, i: Intent, v: Version, l: Ledger, now: int, locked: bool)
    requires IntentInv(cfg, i, v, l, now)
    requires RearmRefusal(i, v, now, true, true, locked, cfg.relay.extractingSeconds, MaxAttempts(cfg)).None?
    ensures IntentInv(cfg, Rearm(i, now), v, Granted(l), now)
  {
  }

  /** A worker commit leaves every promise about the intent intact. */
  lemma RowMovedKeepsIntent(cfg: Config, task: TaskId, i: Intent, v: Version, v': Version, log: seq<AuditEvent>,
                            l: Ledger, now: int)
    requires RowMoved(cfg, task, v, v', log, now) && IntentInv(cfg, i, v, l, now)
    ensures IntentInv(cfg, i, v', l, now)
  {
  }
}
