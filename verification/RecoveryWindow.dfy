/**
 The timeouts of app/config.py, the retry backoff of app/documents/tasks.py, and why a relay built
 from accepted settings waits out every delivery it has already caused.
 */
module RecoveryWindow {
  import opened Base
  import opened DocumentRows
  import opened Relay
  import opened Protocol
  import opened IngestionSystem
  import opened IngestionTheorems

  /** The timing fields of `Settings`, in seconds. */
  datatype Settings = Settings(
    deployed: bool,                    // staging or production
    visibilityTimeout: int,
    outboxRecovery: int,
    scanTimeout: int,
    maxRetries: int,
    softTimeLimit: int,
    hardTimeLimit: int)

  predicate Accepted(s: Settings) {
    && 5 <= s.visibilityTimeout <= 86_400
    && 60 <= s.outboxRecovery <= 86_400
    && 1 <= s.scanTimeout <= 600
    && 0 <= s.maxRetries <= 10
    && 1 <= s.softTimeLimit <= 600
    && 2 <= s.hardTimeLimit <= 900
    && s.hardTimeLimit > s.softTimeLimit
    && s.scanTimeout < s.softTimeLimit
    && (s.deployed ==> s.visibilityTimeout > s.hardTimeLimit)
  }

  function EffectiveRecovery(s: Settings): int {
    Max(s.outboxRecovery, s.visibilityTimeout + s.hardTimeLimit * (s.maxRetries + 1) + 60 * s.maxRetries + 60)
  }

  /** Python's `round`: to the nearest integer, ties to the even one. */
  function Round(x: real): int {
    var below := x.Floor;
    var rest := x - below as real;
    if rest < 0.5 then below
    else if rest > 0.5 then below + 1
    else if below % 2 == 0 then below else below + 1
  }

  /** Never further than a half away, and to the even neighbour from exactly between. */
  lemma RoundIsNearest(x: real)
    ensures -0.5 <= Round(x) as real - x <= 0.5
    ensures Round(x) as real - x == 0.5 || Round(x) as real - x == -0.5 ==> Round(x) % 2 == 0
    ensures x == x.Floor as real ==> Round(x) == x.Floor
  {
  }

  function Clamp(fraction: real): real {
    if fraction < 0.0 then 0.0 else if fraction > 1.0 then 1.0 else fraction
  }

  function RetryCountdown(retry: int, jitter: real): int {
    var base: nat := Min(60, Pow2(Max(0, retry)));
    Min(60, base + Jitter(base, jitter))
  }

  lemma RoundStaysBetween(x: real, bound: nat)
    requires 0.0 <= x <= bound as real
    ensures 0 <= Round(x) <= bound
  {
    assert x.Floor <= bound;
    if x.Floor == bound {
      assert x == bound as real;
    }
  }

  function Jitter(base: nat, jitter: real): (extra: int)
    ensures 0 <= extra <= base
  {
    var x := base as real * Clamp(jitter);
    RoundStaysBetween(x, base);
    Round(x)
  }

  lemma PowerGrows(n: nat)
    ensures 1 <= Pow2(n) && Pow2(n + 1) == 2 * Pow2(n)
  {
    if n > 0 {
      PowerGrows(n - 1);
    }
  }

  /** Backoff doubles under the cap, whatever the jitter. */
  lemma CountdownBounds(retry: nat, jitter: real)
    ensures Min(60, Pow2(retry)) <= RetryCountdown(retry, jitter) <= Min(60, Pow2(retry + 1))
    ensures jitter <= 0.0 ==> RetryCountdown(retry, jitter) == Min(60, Pow2(retry))
    ensures jitter >= 1.0 ==> RetryCountdown(retry, jitter) == Min(60, Pow2(retry + 1))
  {
    PowerGrows(retry);
  }

  /** Total backoff of the first `|jitters|` retries. */
  function TotalBackoff(jitters: seq<real>): int {
    if jitters == [] then 0
    else TotalBackoff(jitters[..|jitters| - 1]) + RetryCountdown(|jitters| - 1, jitters[|jitters| - 1])
  }

  lemma {:induction false} BackoffBounded(jitters: seq<real>)
    ensures |jitters| <= TotalBackoff(jitters) <= 60 * |jitters|
  {
    if jitters != [] {
      BackoffBounded(jitters[..|jitters| - 1]);
      CountdownBounds(|jitters| - 1, jitters[|jitters| - 1]);
      PowerGrows(|jitters| - 1);
    }
  }

  /** Broker redelivery, every bounded attempt and every backoff in a row, in seconds. */
  function DeliveryWindow(s: Settings, jitters: seq<real>): int {
    s.visibilityTimeout + s.hardTimeLimit * (s.maxRetries + 1) + TotalBackoff(jitters)
  }

  /** Redelivery, every bounded attempt and every backoff fit strictly into the recovery delay. */
  lemma RecoveryOutlastsDeliveries(s: Settings, jitters: seq<real>)
    requires Accepted(s) && |jitters| <= s.maxRetries
    ensures DeliveryWindow(s, jitters) < EffectiveRecovery(s)
  {
    BackoffBounded(jitters);
  }

  /** The configured delay, or the least one with a minute to spare over every possible backoff. */
  lemma EffectiveRecoveryMeans(s: Settings)
    requires Accepted(s)
    ensures EffectiveRecovery(s) >= s.outboxRecovery
    ensures forall jitters: seq<real> | |jitters| <= s.maxRetries ::
              EffectiveRecovery(s) >= DeliveryWindow(s, jitters) + 60
    ensures EffectiveRecovery(s) == s.outboxRecovery
            || EffectiveRecovery(s) == s.visibilityTimeout + (s.maxRetries + 1) * (s.hardTimeLimit + 60)
  {
    forall jitters: seq<real> | |jitters| <= s.maxRetries
      ensures EffectiveRecovery(s) >= DeliveryWindow(s, jitters) + 60
    {
      BackoffBounded(jitters);
    }
  }

  /** The relay and worker that app/documents/relay_runtime.py and worker_runtime.py build. */
  function Deployed(s: Settings): Config
    requires Accepted(s)
  {
    Config(RelayPolicy(30, EffectiveRecovery(s), s.hardTimeLimit + s.visibilityTimeout + 60, 20, 3), s.maxRetries)
  }

  /**
   Over every run of a deployed system: once a publication is recorded as successful, the relay
   does not look at the intent again before redelivery, all attempts and all backoffs fit in.
   */
  lemma RelayWaitsOutDeliveries(settings: Settings, jitters: seq<real>, s: System, v: nat, p: Publication,
                                run: seq<Event>, token: Token)
    requires Accepted(settings) && |jitters| <= settings.maxRetries
    requires Reached(Deployed(settings), s) && FinishesAt(Deployed(settings), s, v, p)
    requires ValidRun(Deployed(settings), Finishing(Deployed(settings), s, v, p, true), run)
    requires ClaimsAt(After(Deployed(settings), Finishing(Deployed(settings), s, v, p, true), run), v, token)
    ensures After(Deployed(settings), Finishing(Deployed(settings), s, v, p, true), run).now
            > s.now + Seconds(DeliveryWindow(settings, jitters))
  {
    RecoveryOutlastsDeliveries(settings, jitters);
    RecoverySpacing(Deployed(settings), s, v, p, run, token);
  }

  /**
   Over every run of a deployed system: a version found extracting is published again only after its
   attempt was killed and its message redelivered, with a minute to spare.
   */
  lemma RecoveredExtractionIsDead(settings: Settings, s: System, v: nat, token: Token)
    requires Accepted(settings) && Reached(Deployed(settings), s) && ClaimsAt(s, v, token)
    requires SelectionAt(Deployed(settings), s, v, token).Published? && s.cells[v].version.value.status.Extracting?
    ensures s.cells[v].version.value.startedAt.Some?
    ensures s.now >= s.cells[v].version.value.startedAt.value
                     + 1_000_000 * (settings.hardTimeLimit + settings.visibilityTimeout + 60)
  {
    var c := s.cells[v];
    PublishesOverNoExtraction(Deployed(settings).relay, c.intent.value, c.version.value, s.now, token);
  }

  /** With the deployed policy the relay selects one intent at most 39 times in its life. */
  lemma DeployedPolicyIsBounded(settings: Settings, s0: System, run: seq<Event>, v: nat)
    requires Accepted(settings) && Initial(Deployed(settings), s0)
    requires ValidRun(Deployed(settings), s0, run) && v in After(Deployed(settings), s0, run).cells
    ensures Selections(run, v) <= 39
    ensures var c := After(Deployed(settings), s0, run).cells[v];
            c.intent.Some? ==> c.intent.value.publishAttempts <= 23 && c.intent.value.recoveryAttempts <= 6
  {
    SelectionsBounded(Deployed(settings), s0, run, v);
    if After(Deployed(settings), s0, run).cells[v].intent.Some? {
      BudgetsHold(Deployed(settings), After(Deployed(settings), s0, run), v);
    }
  }
}
