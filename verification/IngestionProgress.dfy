/** Runs that exist: a way out of every state, and the runs that show which assumptions are needed. */
module IngestionProgress {
  import opened Base
  import opened DocumentRows
  import opened Relay
  import opened Ingestion
  import opened Protocol
  import opened ProtocolInvariant
  import opened WorkerInvariant
  import opened IngestionInvariant
  import opened IngestionSystem
  import opened IngestionTheorems

  // ------------------------------------------------------------------ actions on one cell

  predicate Runs(cfg: Config, c: Cell, actions: seq<Action>, now: int)
    decreases |actions|
  {
    actions == [] || (Enabled(cfg, c, actions[0], now) && Runs(cfg, Apply(cfg, c, actions[0], now), actions[1..], now))
  }

  function RunAll(cfg: Config, c: Cell, actions: seq<Action>, now: int): Cell
    requires Runs(cfg, c, actions, now)
    decreases |actions|
  {
    if actions == [] then c else RunAll(cfg, Apply(cfg, c, actions[0], now), actions[1..], now)
  }

  lemma Prepend(cfg: Config, c: Cell, a: Action, rest: seq<Action>, now: int)
    requires Enabled(cfg, c, a, now) && Runs(cfg, Apply(cfg, c, a, now), rest, now)
    ensures Runs(cfg, c, [a] + rest, now)
    ensures RunAll(cfg, c, [a] + rest, now) == RunAll(cfg, Apply(cfg, c, a, now), rest, now)
  {
    assert ([a] + rest)[1..] == rest;
  }

  function Events(v: nat, actions: seq<Action>): seq<Event> {
    if actions == [] then [] else [Act(v, actions[0])] + Events(v, actions[1..])
  }

  lemma {:induction false} LiftToSystem(cfg: Config, s: System, v: nat, actions: seq<Action>)
    requires v in s.cells && Runs(cfg, s.cells[v], actions, s.now)
    ensures ValidRun(cfg, s, Events(v, actions))
    ensures var s' := After(cfg, s, Events(v, actions));
            v in s'.cells && s'.cells[v] == RunAll(cfg, s.cells[v], actions, s.now)
    decreases |actions|
  {
    if actions != [] {
      var s' := Step(cfg, s, Act(v, actions[0]));
      LiftToSystem(cfg, s', v, actions[1..]);
      assert Events(v, actions)[1..] == Events(v, actions[1..]);
    }
  }

  // ------------------------------------------------------------------ no dead end

  lemma UnusedDelivery(c: Cell) returns (d: nat)
    ensures d !in c.deliveries
  {
    d := Unused(c.deliveries.Keys);
  }

  ghost function Unused(keys: set<nat>): (d: nat)
    ensures d !in keys && forall k :: k in keys ==> k < d
  {
    if keys == {} then 0
    else
      var k :| k in keys;
      var rest := Unused(keys - {k});
      assert forall j :: j in keys ==> j == k || j in keys - {k};
      Max(rest, k + 1)
  }

  /** A version that a message of the right task can still be delivered to. */
  predicate Deliverable(c: Cell, m: Message) {
    && c.version.Some? && !Terminal(c.version.value) && m in c.broker
    && (c.version.value.status.Extracting? ==> c.version.value.owner == Some(m.taskId))
  }

  /** The version came to its end, and nothing went wrong on the way. */
  predicate Finished(c: Cell, c': Cell) {
    c'.version.Some? && Terminal(c'.version.value) && c'.mishaps == c.mishaps
  }

  lemma WorkToTheEnd(cfg: Config, c: Cell, d: nat, now: int) returns (actions: seq<Action>)
    requires d in c.deliveries && c.deliveries[d].stage.Locked?
    requires c.version.Some? && !Terminal(c.version.value)
    requires c.version.value.status.Extracting? ==> c.version.value.owner == Some(c.deliveries[d].message.taskId)
    ensures Runs(cfg, c, actions, now)
    ensures Finished(c, RunAll(cfg, c, actions, now))
  {
    var claim := Worker(d, ClaimWork(false));
    var c1 := Apply(cfg, c, claim, now);
    if d in c1.deliveries {
      var finish := Worker(d, FinishWork(Extracted("")));
      assert Enabled(cfg, c1, finish, now);
      var c2 := Apply(cfg, c1, finish, now);
      assert Terminal(c2.version.value);
      assert Runs(cfg, c2, [], now);
      Prepend(cfg, c1, finish, [], now);
      Prepend(cfg, c, claim, [finish] + [], now);
      actions := [claim] + ([finish] + []);
    } else {
      assert Runs(cfg, c1, [], now);
      Prepend(cfg, c, claim, [], now);
      actions := [claim] + [];
    }
  }

  lemma DeliverToTheEnd(cfg: Config, c: Cell, m: Message, now: int) returns (actions: seq<Action>)
    requires Deliverable(c, m) && LockInv(c)
    ensures Runs(cfg, c, actions, now)
    ensures Finished(c, RunAll(cfg, c, actions, now))
    decreases c.lock.Some?
  {
    if c.lock.Some? {
      var die := Worker(c.lock.value, Die);
      WorkerKeepsLock(cfg, c, c.lock.value, Die, now);
      var rest := DeliverToTheEnd(cfg, Apply(cfg, c, die, now), m, now);
      Prepend(cfg, c, die, rest, now);
      return [die] + rest;
    }
    var d := UnusedDelivery(c);
    var receive, lock := Worker(d, Receive(m)), Worker(d, TryLock);
    var c1 := Apply(cfg, c, receive, now);
    var c2 := Apply(cfg, c1, lock, now);
    var rest := WorkToTheEnd(cfg, c2, d, now);
    Prepend(cfg, c1, lock, rest, now);
    Prepend(cfg, c, receive, [lock] + rest, now);
    actions := [receive] + ([lock] + rest);
  }

  /** When the relay may look again: due, lease run out, and past any running extraction. */
  predicate Quiet(cfg: Config, i: Intent, v: Version, now: int) {
    && i.availableAt <= now
    && LeaseFree(i, now)
    && (v.startedAt.Some? ==> v.startedAt.value + Seconds(cfg.relay.extractingSeconds) <= now)
  }

  function QuietFrom(cfg: Config, i: Intent, v: Version, now: int): (t: int)
    ensures now <= t && Quiet(cfg, i, v, t)
  {
    var lease := if i.leaseExpiresAt.Some? then i.leaseExpiresAt.value else now;
    var clear := if v.startedAt.Some? then v.startedAt.value + Seconds(cfg.relay.extractingSeconds) else now;
    Max(Max(now, i.availableAt), Max(lease, clear))
  }

  /** Settled one way or the other: a terminal version, or an intent an operator is shown. */
  predicate Resolved(c: Cell) {
    || (c.version.Some? && Terminal(c.version.value))
    || (c.intent.Some? && c.intent.value.unresolvedAt.Some?)
  }

  lemma ResolveCell(cfg: Config, c: Cell, now: int) returns (actions: seq<Action>)
    requires CellInv(cfg, c, now) && c.version.Some? && c.intent.Some? && !Resolved(c)
    requires Quiet(cfg, c.intent.value, c.version.value, now)
    ensures Runs(cfg, c, actions, now)
    ensures var c' := RunAll(cfg, c, actions, now); Resolved(c') && c'.mishaps == c.mishaps
  {
    var token := Unused(c.ledger.issued);
    var claim := Outbox(ClaimIntent(token));
    assert Due(c.intent.value, now);
    var c1 := Apply(cfg, c, claim, now);
    var selection := Claim(cfg.relay, c.intent.value, c.version.value, now, token).1;
    if selection.Published? {
      var p := selection.publication;
      var publish := Outbox(PublishClaimed(p));
      var c2 := Apply(cfg, c1, publish, now);
      ClaimKeepsMessages(cfg, c, token, now);
      var rest := DeliverToTheEnd(cfg, c2, Message(p.taskId, p.retries, p.token), now);
      Prepend(cfg, c1, publish, rest, now);
      Prepend(cfg, c, claim, [publish] + rest, now);
      actions := [claim] + ([publish] + rest);
    } else {
      assert Runs(cfg, c1, [], now);
      Prepend(cfg, c, claim, [], now);
      actions := [claim] + [];
    }
  }

  /**
   No dead end: whatever a run has done to an accepted version, it can still be brought to ready or
   failed, or to an unresolved intent that the operator sees, with no further mishap.
   */
  lemma NoDeadEnd(cfg: Config, s: System, v: nat) returns (run: seq<Event>)
    requires Reached(cfg, s) && v in s.cells && s.cells[v].taskId.Some?
    ensures ValidRun(cfg, s, run)
    ensures var s' := After(cfg, s, run);
            v in s'.cells && Resolved(s'.cells[v]) && s'.cells[v].mishaps == s.cells[v].mishaps
  {
    ReachedInv(cfg, s, v);
    var c := s.cells[v];
    if Resolved(c) {
      return [];
    }
    var tick := Tick(QuietFrom(cfg, c.intent.value, c.version.value, s.now));
    var s' := Step(cfg, s, tick);
    TimePasses(cfg, c, s.now, s'.now);
    var actions := ResolveCell(cfg, c, s'.now);
    LiftToSystem(cfg, s', v, actions);
    run := [tick] + Events(v, actions);
    assert run[1..] == Events(v, actions);
  }
}
