/**
 The outbox relay (app/documents/relay.py): what each transaction does to its rows, first as a
 function on values, then as the method that assigns the row's fields.
 */
module Relay {
  import opened Base
  import opened DocumentRows

  datatype RelayPolicy = RelayPolicy(
    leaseSeconds: nat,
    recoverySeconds: nat,
    extractingSeconds: nat,
    maxPublications: nat,
    maxRecoveries: nat)

  datatype Publication = Publication(
    intentId: nat,
    versionId: nat,
    taskId: TaskId,
    token: Token,
    retries: nat)

  /** What one selection of an intent by `claim` came to. */
  datatype Selection =
    | Published(publication: Publication)
    | Settled
    | Ambiguous
    | Deferred
    | Exhausted

  const RETENTION_SECONDS: nat := 7 * 24 * 60 * 60

  predicate LeaseFree(i: Intent, now: int) {
    i.leaseExpiresAt.None? || i.leaseExpiresAt.value <= now
  }

  predicate Due(i: Intent, now: int) {
    i.settledAt.None? && i.unresolvedAt.None? && i.availableAt <= now && LeaseFree(i, now)
  }

  predicate OutOfBudget(policy: RelayPolicy, i: Intent) {
    || i.publishAttempts >= policy.maxPublications + i.recoveryGrants
    || i.recoveryAttempts >= policy.maxRecoveries + i.recoveryGrants
  }

  /** A recovered message continues the retry budget that the row already records. */
  function RetriesFor(v: Version): nat {
    if v.status.Extracting? && v.attempts > 0 then v.attempts - 1 else v.attempts
  }

  function Claim(policy: RelayPolicy, i: Intent, v: Version, now: int, token: Token): (Intent, Selection) {
    var free := i.(leaseToken := None, leaseExpiresAt := None);
    if Terminal(v) then
      (free.(settledAt := Some(now)), Settled)
    else if v.status.Extracting? && (v.owner != Some(i.taskId) || v.startedAt.None?) then
      (free.(unresolvedAt := Some(now), lastError := Some(OwnershipAmbiguous)), Ambiguous)
    else if v.status.Extracting? && now < v.startedAt.value + Seconds(policy.extractingSeconds) then
      (free.(availableAt := v.startedAt.value + Seconds(policy.extractingSeconds)), Deferred)
    else if v.status.Queued? && v.owner.Some? && v.owner.value != i.taskId then
      (free.(unresolvedAt := Some(now), lastError := Some(OwnershipAmbiguous)), Ambiguous)
    else if OutOfBudget(policy, i) then
      (free.(unresolvedAt := Some(now), lastError := Some(AttemptsExhausted)), Exhausted)
    else
      var expires := now + Seconds(policy.leaseSeconds);
      (free.(recoveryAttempts := i.recoveryAttempts + (if i.publishedAt.Some? then 1 else 0),
             publishAttempts := i.publishAttempts + 1,
             leaseToken := Some(token),
             leaseExpiresAt := Some(expires),
             availableAt := expires),
       Published(Publication(i.id, i.versionId, i.taskId, token, RetriesFor(v))))
  }

  /** Some other task, or no recorded one, is at work on the version. */
  predicate ForeignOwner(i: Intent, v: Version) {
    || (v.owner.Some? && v.owner.value != i.taskId)
    || (v.status.Extracting? && (v.owner.None? || v.startedAt.None?))
  }

  /** An extraction of this intent's task that may still be alive. */
  predicate StillExtracting(policy: RelayPolicy, v: Version, now: int) {
    v.status.Extracting? && v.startedAt.Some? && now < v.startedAt.value + policy.extractingSeconds * 1_000_000
  }

  predicate WithinBudgets(policy: RelayPolicy, i: Intent) {
    && i.publishAttempts < policy.maxPublications + i.recoveryGrants
    && i.recoveryAttempts < policy.maxRecoveries + i.recoveryGrants
  }

  /** The five selections, each by its own condition. */
  lemma SelectionMeans(policy: RelayPolicy, i: Intent, v: Version, now: int, token: Token)
    ensures var s, open := Claim(policy, i, v, now, token).1, !v.status.Ready? && !v.status.Failed?;
            && (s.Settled? <==> !open)
            && (s.Ambiguous? <==> open && ForeignOwner(i, v))
            && (s.Deferred? <==> open && !ForeignOwner(i, v) && StillExtracting(policy, v, now))
            && (s.Exhausted? <==>
                  open && !ForeignOwner(i, v) && !StillExtracting(policy, v, now) && !WithinBudgets(policy, i))
            && (s.Published? <==>
                  open && !ForeignOwner(i, v) && !StillExtracting(policy, v, now) && WithinBudgets(policy, i))
  {
  }

  /** A row that a claim touched and did not publish: lease gone, counters as they were, the reason written down. */
  predicate Shelved(i: Intent, i': Intent, v: Version, now: int, s: Selection, extractingSeconds: nat) {
    && i'.leaseToken.None? && i'.leaseExpiresAt.None? && i'.publishedAt == i.publishedAt
    && i'.publishAttempts == i.publishAttempts && i'.recoveryAttempts == i.recoveryAttempts
    && i'.recoveryGrants == i.recoveryGrants
    && i'.settledAt == (if s.Settled? then Some(now) else i.settledAt)
    && i'.unresolvedAt == (if s.Ambiguous? || s.Exhausted? then Some(now) else i.unresolvedAt)
    && (s.Ambiguous? ==> i'.lastError == Some(OwnershipAmbiguous))
    && (s.Exhausted? ==> i'.lastError == Some(AttemptsExhausted))
    && (s.Settled? || s.Deferred? ==> i'.lastError == i.lastError)
    && (if s.Deferred? then v.startedAt.Some? && i'.availableAt == v.startedAt.value + extractingSeconds * 1_000_000
        else i'.availableAt == i.availableAt)
  }

  /** A row under lease: both deadlines together, one publication more, one recovery more if it had succeeded before. */
  predicate Leased(i: Intent, i': Intent, now: int, token: Token, leaseSeconds: nat) {
    && i'.leaseToken == Some(token) && i'.leaseExpiresAt == Some(i'.availableAt)
    && i'.availableAt == now + leaseSeconds * 1_000_000
    && i'.publishAttempts == i.publishAttempts + 1
    && i'.recoveryAttempts == i.recoveryAttempts + (if i.publishedAt.Some? then 1 else 0)
    && i'.recoveryGrants == i.recoveryGrants && i'.publishedAt == i.publishedAt && i'.lastError == i.lastError
    && i'.settledAt == i.settledAt && i'.unresolvedAt == i.unresolvedAt
  }

  lemma ClaimMeans(policy: RelayPolicy, i: Intent, v: Version, now: int, token: Token)
    ensures var (i', s) := Claim(policy, i, v, now, token);
            && i'.id == i.id && i'.versionId == i.versionId && i'.taskId == i.taskId
            && if s.Published? then Leased(i, i', now, token, policy.leaseSeconds)
               else Shelved(i, i', v, now, s, policy.extractingSeconds)
  {
  }

  function Pow2(n: nat): nat {
    if n == 0 then 1 else 2 * Pow2(n - 1)
  }

  /** Seconds before a failed publication is tried again: capped exponential backoff. */
  function PublishBackoff(attempts: nat): int {
    Min(60, Pow2(Min(attempts, 6)))
  }

  /** Doubling from one second, and a minute from the sixth attempt on. */
  lemma BackoffMeans(attempts: nat)
    ensures PublishBackoff(0) == 1
    ensures attempts < 5 ==> PublishBackoff(attempts + 1) == 2 * PublishBackoff(attempts)
    ensures attempts >= 6 ==> PublishBackoff(attempts) == 60
    ensures 1 <= PublishBackoff(attempts) <= 60
  {
    assert Pow2(6) == 64;
    assert Pow2(5) == 32 && Pow2(4) == 16 && Pow2(3) == 8;
    assert attempts <= 5 ==> attempts in [0, 1, 2, 3, 4, 5];
  }

  /** The row `finish` selects: same intent, same token, lease still running. */
  predicate HoldsLease(i: Intent, p: Publication, now: int) {
    i.id == p.intentId && i.leaseToken == Some(p.token) && i.leaseExpiresAt.Some? && i.leaseExpiresAt.value > now
  }

  function Finish(policy: RelayPolicy, i: Intent, now: int, success: bool): Intent {
    i.(leaseToken := None,
       leaseExpiresAt := None,
       lastError := if success then None else Some(PublishUnavailable),
       publishedAt := if success then Some(now) else i.publishedAt,
       availableAt := now + Seconds(if success then policy.recoverySeconds else PublishBackoff(i.publishAttempts)))
  }

  predicate Settleable(i: Intent, v: Version, now: int) {
    i.settledAt.None? && Terminal(v) && LeaseFree(i, now)
  }

  function Settle(i: Intent, now: int): Intent {
    i.(settledAt := Some(now), unresolvedAt := None, lastError := None, leaseToken := None, leaseExpiresAt := None)
  }

  predicate Removable(i: Intent, now: int) {
    && i.settledAt.Some?
    && i.settledAt.value <= now - Seconds(RETENTION_SECONDS)
    && i.unresolvedAt.None?
    && i.leaseToken.None?
  }

  /** Backfill keeps a known task id and mints one only for an unowned version. */
  function BackfillTask(owner: Option<TaskId>, minted: TaskId): TaskId {
    if owner.Some? && owner.value != "" then owner.value else minted
  }

  class IngestionRelay {
    const policy: RelayPolicy

    constructor (policy: RelayPolicy)
      ensures this.policy == policy
    {
      this.policy := policy;
    }

    /** One claim transaction on the row the due query locked; `null` when it found none. */
    method ClaimNext(intent: IntentRow?, version: VersionRow, now: int, token: Token)
      returns (publication: Option<Publication>)
      requires intent != null ==> Due(intent.Value(), now)
      modifies intent
      ensures intent == null ==> publication == None
      ensures intent != null ==>
        var (row, selection) := Claim(policy, old(intent.Value()), old(version.Value()), now, token);
        && intent.Value() == row
        && publication == if selection.Published? then Some(selection.publication) else None
      ensures intent != null ==>
        var was, v := old(intent.Value()), version.Value();
        && (publication.Some? <==>
              && !v.status.Ready? && !v.status.Failed? && !ForeignOwner(was, v)
              && !StillExtracting(policy, v, now) && WithinBudgets(policy, was))
        && (publication.Some? ==>
              && Leased(was, intent.Value(), now, token, policy.leaseSeconds)
              && publication.value.retries == Max(0, v.attempts - (if v.status.Extracting? then 1 else 0)))
    {
      if intent != null {
        SelectionMeans(policy, intent.Value(), version.Value(), now, token);
        ClaimMeans(policy, intent.Value(), version.Value(), now, token);
      }
      if intent == null {
        return None;
      }
      intent.leaseToken := None;
      intent.leaseExpiresAt := None;
      if version.status.Ready? || version.status.Failed? {
        intent.settledAt := Some(now);
        return None;
      }
      if version.status.Extracting? {
        if version.owner != Some(intent.taskId) || version.startedAt.None? {
          intent.unresolvedAt, intent.lastError := Some(now), Some(OwnershipAmbiguous);
          return None;
        }
        var safeAfter := version.startedAt.value + Seconds(policy.extractingSeconds);
        if now < safeAfter {
          intent.availableAt := safeAfter;
          return None;
        }
      } else if version.owner.Some? && version.owner.value != intent.taskId {
        intent.unresolvedAt, intent.lastError := Some(now), Some(OwnershipAmbiguous);
        return None;
      }
      if || intent.publishAttempts >= policy.maxPublications + intent.recoveryGrants
         || intent.recoveryAttempts >= policy.maxRecoveries + intent.recoveryGrants
      {
        intent.unresolvedAt, intent.lastError := Some(now), Some(AttemptsExhausted);
        return None;
      }
      if intent.publishedAt.Some? {
        intent.recoveryAttempts := intent.recoveryAttempts + 1;
      }
      intent.publishAttempts := intent.publishAttempts + 1;
      var expiresAt := now + Seconds(policy.leaseSeconds);
      intent.leaseToken := Some(token);
      intent.leaseExpiresAt := Some(expiresAt);
      intent.availableAt := expiresAt;
      var retries := Max(0, version.attempts - (if version.status.Extracting? then 1 else 0));
      return Some(Publication(intent.id, intent.versionId, intent.taskId, token, retries));
    }

    /** One finish transaction. The row is looked up by intent, token and unexpired lease. */
    method FinishPublication(intent: IntentRow, p: Publication, now: int, success: bool) returns (done: bool)
      modifies intent
      ensures done == HoldsLease(old(intent.Value()), p, now)
      ensures intent.Value() ==
              if done then Finish(policy, old(intent.Value()), now, success) else old(intent.Value())
      ensures done ==>
        && intent.leaseToken.None? && intent.leaseExpiresAt.None?
        && intent.publishAttempts == old(intent.publishAttempts) && intent.recoveryAttempts == old(intent.recoveryAttempts)
        && intent.settledAt == old(intent.settledAt) && intent.unresolvedAt == old(intent.unresolvedAt)
        && if success
           then && intent.publishedAt == Some(now) && intent.lastError.None?
                && intent.availableAt == now + policy.recoverySeconds * 1_000_000
           else && intent.publishedAt == old(intent.publishedAt) && intent.lastError == Some(PublishUnavailable)
                && intent.availableAt == now + PublishBackoff(intent.publishAttempts) * 1_000_000
    {
      if !(intent.id == p.intentId && intent.leaseToken == Some(p.token)
           && intent.leaseExpiresAt.Some? && intent.leaseExpiresAt.value > now)
      {
        return false;
      }
      intent.leaseToken := None;
      intent.leaseExpiresAt := None;
      intent.lastError := if success then None else Some(PublishUnavailable);
      if success {
        intent.publishedAt := Some(now);
      }
      var delay := if success then policy.recoverySeconds else PublishBackoff(intent.publishAttempts);
      intent.availableAt := now + Seconds(delay);
      return true;
    }

    /**
     One poll of the relay on a claimed row: publish outside any transaction, then record how it
     went. A lease that ran out meanwhile leaves the row as the claim left it.
     */
    method PublishAndFinish(intent: IntentRow?, version: VersionRow, now: int, token: Token, accepted: bool, later: int)
      returns (published: bool)
      requires intent != null ==> Due(intent.Value(), now)
      requires now <= later
      modifies intent
      ensures intent == null ==> !published
      ensures intent != null ==>
        var (row, selection) := Claim(policy, old(intent.Value()), old(version.Value()), now, token);
        && published == selection.Published?
        && intent.Value() == if published && later < now + Seconds(policy.leaseSeconds)
                             then Finish(policy, row, later, accepted) else row
    {
      var publication := ClaimNext(intent, version, now, token);
      if publication.None? {
        return false;
      }
      var _ := FinishPublication(intent, publication.value, later, accepted);
      return true;
    }

    /** Settles every row of the batch the join selected. */
    method SettleTerminal(batch: seq<IntentRow>, now: int) returns (count: nat)
      requires forall j, k :: 0 <= j < k < |batch| ==> batch[j] != batch[k]
      modifies set row | row in batch
      ensures count == |batch|
      ensures forall k :: 0 <= k < |batch| ==> batch[k].Value() == Settle(old(batch[k].Value()), now)
      ensures forall k :: 0 <= k < |batch| ==> batch[k].settledAt == Some(now) && batch[k].unresolvedAt.None?
    {
      for n := 0 to |batch|
        invariant forall k :: 0 <= k < n ==> batch[k].Value() == Settle(old(batch[k].Value()), now)
        invariant forall k :: n <= k < |batch| ==> batch[k].Value() == old(batch[k].Value())
      {
        var intent := batch[n];
        intent.settledAt := Some(now);
        intent.unresolvedAt := None;
        intent.lastError := None;
        intent.leaseToken := None;
        intent.leaseExpiresAt := None;
      }
      count := |batch|;
    }
  }

  datatype BatchError = UnboundedBatch | CutoffInFuture

  /** A query with LIMIT: any of the candidates, as many as there are or as the limit lets through. */
  method TakeUpTo(candidates: set<nat>, limit: nat) returns (selected: set<nat>)
    ensures selected <= candidates && |selected| <= limit
    ensures |selected| < limit ==> selected == candidates
  {
    selected := {};
    var remaining := candidates;
    while |selected| < limit && remaining != {}
      invariant |selected| <= limit && selected !! remaining && selected + remaining == candidates
      decreases remaining
    {
      var v :| v in remaining;
      selected, remaining := selected + {v}, remaining - {v};
    }
  }

  /** The outbox table, keyed by document version: at most one intent per version. */
  class OutboxTable {
    var rows: map<nat, Intent>

    constructor ()
      ensures rows == map[]
    {
      rows := map[];
    }

    /**
     Deletes a bounded batch of rows past retention, passing over those another session has locked.
     Pending rows are out of its reach, and it takes as many as it may.
     */
    method Cleanup(locked: set<nat>, limit: int, now: int) returns (count: Result<nat, BatchError>)
      modifies this
      ensures count.Ok? <==> 1 <= limit <= 1000
      ensures count.Err? ==> rows == old(rows)
      ensures forall v :: v in rows ==> v in old(rows) && rows[v] == old(rows)[v]
      ensures forall v :: v in old(rows) && v !in rows ==> v !in locked && Removable(old(rows)[v], now)
      ensures forall v :: v in old(rows) && v !in rows ==>
        && old(rows)[v].settledAt.Some? && old(rows)[v].settledAt.value + 604_800 * 1_000_000 <= now
        && old(rows)[v].unresolvedAt.None? && old(rows)[v].leaseToken.None?
      ensures count.Ok? ==> count.value == |old(rows).Keys - rows.Keys| <= limit
      ensures count.Ok? && count.value < limit ==> forall v :: v in rows && Removable(rows[v], now) ==> v in locked
    {
      if !(1 <= limit <= 1000) {
        return Err(UnboundedBatch);
      }
      var candidates := set v | v in rows && v !in locked && Removable(rows[v], now);
      var selected := TakeUpTo(candidates, limit);
      rows := rows - selected;
      assert old(rows).Keys - rows.Keys == selected;
      return Ok(|selected|);
    }

    /** Inserts one intent per selected queued version; an existing row wins over the insert. */
    method Backfill(selected: seq<nat>, owners: map<nat, Option<TaskId>>, minted: nat -> (nat, TaskId),
                    cutoff: int, limit: int, now: int)
      returns (count: Result<nat, BatchError>)
      requires forall v :: v in selected ==> v in owners
      requires 1 <= limit <= 1000 ==> |selected| <= limit
      modifies this
      ensures count.Ok? <==> 1 <= limit <= 1000 && cutoff <= now
      ensures count.Err? ==> rows == old(rows)
      ensures count.Ok? ==> count.value == |selected| && rows.Keys == old(rows).Keys + set v | v in selected
      ensures forall v :: v in old(rows) ==> v in rows && rows[v] == old(rows)[v]
      ensures count.Ok? ==> forall v :: v in selected && v !in old(rows) ==>
        rows[v] == NewIntent(minted(v).0, v, BackfillTask(owners[v], minted(v).1), now)
      ensures count.Ok? ==> forall v :: v in selected && v !in old(rows) ==>
        && rows[v].versionId == v && Due(rows[v], now)
        && (owners[v].Some? && owners[v].value != "" ==> rows[v].taskId == owners[v].value)
    {
      if !(1 <= limit <= 1000) {
        return Err(UnboundedBatch);
      }
      if cutoff > now {
        return Err(CutoffInFuture);
      }
      for n := 0 to |selected|
        invariant rows.Keys == old(rows).Keys + set v | v in selected[..n]
        invariant forall v :: v in old(rows) ==> v in rows && rows[v] == old(rows)[v]
        invariant forall v :: v in selected[..n] && v !in old(rows) ==>
          rows[v] == NewIntent(minted(v).0, v, BackfillTask(owners[v], minted(v).1), now)
      {
        var version := selected[n];
        if version !in rows {
          var (id, task) := minted(version);
          rows := rows[version := NewIntent(id, version, BackfillTask(owners[version], task), now)];
        }
        assert selected[..n + 1] == selected[..n] + [version];
      }
      assert selected[..|selected|] == selected;
      return Ok(|selected|);
    }
  }
}
