/**
 The worker's database transactions (app/documents/ingestion.py) and the operator's rearm
 (app/documents/recovery.py).
 */
module Ingestion {
  import opened Base
  import opened DocumentRows

  /** What `_claim` tells `process`. */
  datatype ClaimOutcome = Proceed | AlreadyTerminal | OwnedByAnotherTask | GaveUp

  function ClaimVersion(v: Version, task: TaskId, now: int, maxAttempts: nat): (Version, ClaimOutcome) {
    if Terminal(v) then
      (v, AlreadyTerminal)
    else if v.status.Extracting? then
      (v, if v.owner == Some(task) then Proceed else OwnedByAnotherTask)
    else if v.attempts >= maxAttempts then
      (Fail(v, RetryExhausted), GaveUp)
    else
      (v.(status := Extracting, owner := Some(task), attempts := v.attempts + 1, error := None, startedAt := Some(now)),
       Proceed)
  }

  function Fail(v: Version, code: ErrorCode): Version {
    v.(status := Failed, error := Some(code), owner := None, startedAt := None, text := None)
  }

  function MarkReady(v: Version, task: TaskId, text: string): Version {
    if OwnedExtraction(v, task) then
      v.(status := Ready, text := Some(text), error := None, owner := None, startedAt := None)
    else v
  }

  function MarkFailed(v: Version, task: TaskId, code: ErrorCode): Version {
    if OwnedExtraction(v, task) then Fail(v, code) else v
  }

  function PrepareRetry(v: Version, task: TaskId, code: ErrorCode): Version {
    if OwnedExtraction(v, task) then
      v.(status := Queued, owner := None, startedAt := None, error := Some(code))
    else v
  }

  /** The rows one worker transaction may write: the locked version and the audit trail. */
  class WorkerTransaction {
    const version: VersionRow
    var audits: seq<AuditEvent>

    constructor (version: VersionRow)
      ensures this.version == version && audits == []
    {
      this.version := version;
      audits := [];
    }

    method Claim(task: TaskId, now: int, maxAttempts: nat) returns (outcome: ClaimOutcome)
      modifies this, version
      ensures (version.Value(), outcome) == ClaimVersion(old(version.Value()), task, now, maxAttempts)
      ensures audits == old(audits) +
                        if outcome.GaveUp? then [MarkedFailed(RetryExhausted, version.attempts)] else []
    {
      if version.status.Ready? || version.status.Failed? {
        return AlreadyTerminal;
      }
      if version.status.Extracting? {
        if version.owner != Some(task) {
          return OwnedByAnotherTask;
        }
      } else {
        if version.attempts >= maxAttempts {
          version.status := Failed;
          version.error := Some(RetryExhausted);
          version.owner := None;
          version.startedAt := None;
          version.text := None;
          audits := audits + [MarkedFailed(RetryExhausted, version.attempts)];
          return GaveUp;
        }
        version.status := Extracting;
        version.owner := Some(task);
        version.attempts := version.attempts + 1;
        version.error := None;
        version.startedAt := Some(now);
      }
      return Proceed;
    }

    method Complete(task: TaskId, text: string)
      modifies this, version
      ensures version.Value() == MarkReady(old(version.Value()), task, text)
      ensures audits == old(audits) +
                        if old(OwnedExtraction(version.Value(), task)) then [MarkedReady(version.attempts, |text|)] else []
    {
      if !(version.status.Extracting? && version.owner == Some(task)) {
        return;
      }
      version.status := Ready;
      version.text := Some(text);
      version.error := None;
      version.owner := None;
      version.startedAt := None;
      audits := audits + [MarkedReady(version.attempts, |text|)];
    }

    method Reject(task: TaskId, code: ErrorCode)
      modifies this, version
      ensures version.Value() == MarkFailed(old(version.Value()), task, code)
      ensures audits == old(audits) +
                        if old(OwnedExtraction(version.Value(), task)) then [MarkedFailed(code, version.attempts)] else []
    {
      if !(version.status.Extracting? && version.owner == Some(task)) {
        return;
      }
      version.status := Failed;
      version.text := None;
      version.error := Some(code);
      version.owner := None;
      version.startedAt := None;
      audits := audits + [MarkedFailed(code, version.attempts)];
    }

    method Requeue(task: TaskId, code: ErrorCode)
      modifies version
      ensures version.Value() == PrepareRetry(old(version.Value()), task, code)
    {
      if !(version.status.Extracting? && version.owner == Some(task)) {
        return;
      }
      version.status := Queued;
      version.owner := None;
      version.startedAt := None;
      version.error := Some(code);
    }
  }

  datatype RearmError =
    | DependencyFailed
    | AdminRequired
    | NotExhausted
    | ActiveLease
    | GrantLimit
    | ActiveDelivery
    | TerminalVersion
    | AmbiguousOwner
    | ActiveExtraction
    | AttemptsSpent

  const MAX_GRANTS: nat := 3

  /** The guards of `rearm_intent`, in the order they are checked. */
  function RearmRefusal(i: Intent, v: Version, now: int, healthy: bool, admin: bool, locked: bool,
                        extractingSeconds: nat, maxAttempts: nat): Option<RearmError> {
    if !healthy then Some(DependencyFailed)
    else if !admin then Some(AdminRequired)
    else if i.unresolvedAt.None? || i.lastError != Some(AttemptsExhausted) || i.settledAt.Some? then Some(NotExhausted)
    else if i.leaseExpiresAt.Some? && i.leaseExpiresAt.value > now then Some(ActiveLease)
    else if i.recoveryGrants >= MAX_GRANTS then Some(GrantLimit)
    else if locked then Some(ActiveDelivery)
    else if Terminal(v) then Some(TerminalVersion)
    else if v.owner.Some? && v.owner.value != i.taskId then Some(AmbiguousOwner)
    else if && v.status.Extracting?
            && (v.owner != Some(i.taskId) || v.startedAt.None? || v.startedAt.value + Seconds(extractingSeconds) > now)
      then Some(ActiveExtraction)
    else if v.status.Queued? && v.attempts >= maxAttempts then Some(AttemptsSpent)
    else None
  }

  /** The rows an operator may rearm, whatever order the guards are checked in. */
  predicate Rearmable(i: Intent, v: Version, now: int, extractingSeconds: nat, maxAttempts: nat) {
    && i.unresolvedAt.Some? && i.lastError == Some(AttemptsExhausted) && i.settledAt.None?
    && (i.leaseExpiresAt.Some? ==> i.leaseExpiresAt.value <= now)
    && i.recoveryGrants < 3
    && (v.status.Queued? || v.status.Extracting?)
    && (v.owner.None? || v.owner == Some(i.taskId))
    && (v.status.Extracting? ==>
          v.owner.Some? && v.startedAt.Some? && v.startedAt.value + extractingSeconds * 1_000_000 <= now)
    && (v.status.Queued? ==> v.attempts < maxAttempts)
  }

  /** What an operator learns from each error. */
  predicate Explains(e: RearmError, i: Intent, v: Version, now: int, healthy: bool, admin: bool, locked: bool,
                     extractingSeconds: nat, maxAttempts: nat) {
    match e
    case DependencyFailed => !healthy
    case AdminRequired => !admin
    case NotExhausted => i.unresolvedAt.None? || i.lastError != Some(AttemptsExhausted) || i.settledAt.Some?
    case ActiveLease => i.leaseExpiresAt.Some? && now < i.leaseExpiresAt.value
    case GrantLimit => i.recoveryGrants >= 3
    case ActiveDelivery => locked
    case TerminalVersion => v.status.Ready? || v.status.Failed?
    case AmbiguousOwner => v.owner.Some? && v.owner != Some(i.taskId)
    case ActiveExtraction =>
      && v.status.Extracting?
      && (v.owner.None? || v.startedAt.None? || now < v.startedAt.value + extractingSeconds * 1_000_000)
    case AttemptsSpent => v.status.Queued? && v.attempts >= maxAttempts
  }

  /** The order in which `rearm_intent` looks. */
  function Rank(e: RearmError): nat {
    match e
    case DependencyFailed => 0
    case AdminRequired => 1
    case NotExhausted => 2
    case ActiveLease => 3
    case GrantLimit => 4
    case ActiveDelivery => 5
    case TerminalVersion => 6
    case AmbiguousOwner => 7
    case ActiveExtraction => 8
    case AttemptsSpent => 9
  }

  /** Refused exactly when some guard fails, and with the error of the first one that does. */
  lemma RefusalMeans(i: Intent, v: Version, now: int, healthy: bool, admin: bool, locked: bool,
                     extractingSeconds: nat, maxAttempts: nat)
    ensures var refusal := RearmRefusal(i, v, now, healthy, admin, locked, extractingSeconds, maxAttempts);
            && (refusal.None? <==> healthy && admin && !locked && Rearmable(i, v, now, extractingSeconds, maxAttempts))
            && (refusal.Some? ==>
                  && Explains(refusal.value, i, v, now, healthy, admin, locked, extractingSeconds, maxAttempts)
                  && forall e :: Rank(e) < Rank(refusal.value) ==>
                       !Explains(e, i, v, now, healthy, admin, locked, extractingSeconds, maxAttempts))
  {
  }

  function Rearm(i: Intent, now: int): Intent {
    i.(recoveryGrants := i.recoveryGrants + 1,
       unresolvedAt := None,
       lastError := None,
       leaseToken := None,
       leaseExpiresAt := None,
       availableAt := now)
  }

  /** One operator rearm: a grant, or an error that leaves the row as it was. */
  method RearmIntent(intent: IntentRow, version: VersionRow, now: int, healthy: bool, admin: bool, locked: bool,
                     extractingSeconds: nat, maxAttempts: nat)
    returns (grant: Result<nat, RearmError>, audit: Option<AuditEvent>)
    modifies intent
    ensures grant.Ok? <==>
      healthy && admin && !locked && Rearmable(old(intent.Value()), version.Value(), now, extractingSeconds, maxAttempts)
    ensures grant.Ok? ==>
      && grant.value == intent.recoveryGrants == old(intent.recoveryGrants) + 1 <= 3
      && audit == Some(Rearmed(grant.value))
      && intent.unresolvedAt.None? && intent.lastError.None? && intent.leaseToken.None? && intent.leaseExpiresAt.None?
      && intent.availableAt == now && intent.settledAt.None? && intent.publishedAt == old(intent.publishedAt)
      && intent.publishAttempts == old(intent.publishAttempts) && intent.recoveryAttempts == old(intent.recoveryAttempts)
    ensures grant.Err? ==>
      && intent.Value() == old(intent.Value()) && audit.None?
      && Explains(grant.error, old(intent.Value()), version.Value(), now, healthy, admin, locked,
                  extractingSeconds, maxAttempts)
      && forall e :: Rank(e) < Rank(grant.error) ==>
           !Explains(e, old(intent.Value()), version.Value(), now, healthy, admin, locked, extractingSeconds, maxAttempts)
    ensures var refusal := RearmRefusal(old(intent.Value()), version.Value(), now, healthy, admin, locked,
                                        extractingSeconds, maxAttempts);
            if refusal.None? then
              && intent.Value() == Rearm(old(intent.Value()), now)
              && grant == Ok(intent.recoveryGrants)
              && audit == Some(Rearmed(intent.recoveryGrants))
            else
              intent.Value() == old(intent.Value()) && grant == Err(refusal.value) && audit == None
  {
    RefusalMeans(intent.Value(), version.Value(), now, healthy, admin, locked, extractingSeconds, maxAttempts);
    if !healthy {
      return Err(DependencyFailed), None;
    }
    if !admin {
      return Err(AdminRequired), None;
    }
    if intent.unresolvedAt.None? || intent.lastError != Some(AttemptsExhausted) || intent.settledAt.Some? {
      return Err(NotExhausted), None;
    }
    if intent.leaseExpiresAt.Some? && intent.leaseExpiresAt.value > now {
      return Err(ActiveLease), None;
    }
    if intent.recoveryGrants >= MAX_GRANTS {
      return Err(GrantLimit), None;
    }
    if locked {
      return Err(ActiveDelivery), None;
    }
    if version.status.Ready? || version.status.Failed? {
      return Err(TerminalVersion), None;
    }
    if version.owner.Some? && version.owner.value != intent.taskId {
      return Err(AmbiguousOwner), None;
    }
    if && version.status.Extracting?
       && (|| version.owner != Some(intent.taskId)
           || version.startedAt.None?
           || version.startedAt.value + Seconds(extractingSeconds) > now)
    {
      return Err(ActiveExtraction), None;
    }
    if version.status.Queued? && version.attempts >= maxAttempts {
      return Err(AttemptsSpent), None;
    }
    intent.recoveryGrants := intent.recoveryGrants + 1;
    intent.unresolvedAt := None;
    intent.lastError := None;
    intent.leaseToken := None;
    intent.leaseExpiresAt := None;
    intent.availableAt := now;
    return Ok(intent.recoveryGrants), Some(Rearmed(intent.recoveryGrants));
  }
}
