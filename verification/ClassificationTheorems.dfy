/** What the claim table promises over every run of concurrent calls, crashes, expiries and edits. */
module ClassificationTheorems {
  import opened Base
  import opened ClassificationInput
  import opened ClassificationService
  import opened ClassificationApplication
  import opened ClassificationProtocol

  predicate ValidRun(w: World, run: seq<Action>)
    decreases |run|
  {
    run == [] || (Enabled(w, run[0]) && ValidRun(Apply(w, run[0]), run[1..]))
  }

  function After(w: World, run: seq<Action>): World
    requires ValidRun(w, run)
    decreases |run|
  {
    if run == [] then w else After(Apply(w, run[0]), run[1..])
  }

  function Fresh(now: int, ticket: Option<Ticket>): World {
    World(now, ticket, map[], [], map[], multiset{})
  }

  ghost predicate Reached(w: World) {
    exists now, ticket, run :: ValidRun(Fresh(now, ticket), run) && w == After(Fresh(now, ticket), run)
  }

  lemma {:induction false} RunKeepsInv(w: World, run: seq<Action>)
    requires Inv(w) && ValidRun(w, run)
    ensures Inv(After(w, run))
    decreases |run|
  {
    if run != [] {
      ActionKeepsInv(w, run[0]);
      RunKeepsInv(Apply(w, run[0]), run[1..]);
    }
  }

  lemma ReachedInv(w: World)
    requires Reached(w)
    ensures Inv(w)
  {
    var now, ticket, run :| ValidRun(Fresh(now, ticket), run) && w == After(Fresh(now, ticket), run);
    RunKeepsInv(Fresh(now, ticket), run);
  }

  // ------------------------------------------------------------------ the cache agrees

  /** `read`: the matching row, or else the latest one shown as stale. */
  function Read(w: World, runtime: Option<Runtime>, found: Option<nat>, latest: Option<nat>): View
    requires found.Some? ==> found.value in w.rows
    requires latest.Some? ==> latest.value in w.rows
  {
    if Present(w).Some? && runtime.Some? && found.Some? then
      ViewOf(found.value, w.rows[found.value], w.now, true)
    else if latest.None? then
      View(NotRequested, None, None, None)
    else
      ViewOf(latest.value, w.rows[latest.value], w.now, false)
  }

  /** The result the pure function gives for the ticket as it is now. */
  predicate Agrees(w: World, runtime: Runtime, view: View) {
    && w.ticket.Some? && view.result.Some?
    && ClassifyOpeningRequest(w.ticket.value.subject, w.ticket.value.messages, runtime.script) == Ok(view.result.value)
  }

  lemma MatchingRowAgrees(w: World, runtime: Runtime, k: nat)
    requires Inv(w) && Present(w).Some? && k in w.rows && HasKey(w.rows[k], Present(w).value, runtime)
    requires w.rows[k].state.Succeeded?
    ensures Agrees(w, runtime, ViewOf(k, w.rows[k], w.now, true))
  {
    assert RowInv(w.rows[k]);
    ClassifyIsEvaluate(w.ticket.value.subject, w.ticket.value.messages, runtime.script);
  }

  /** Every current view of a reader shows what classifying the ticket now would give. */
  lemma ReadIsFaithful(w: World, runtime: Option<Runtime>, found: Option<nat>, latest: Option<nat>)
    requires Reached(w)
    requires latest.Some? ==> latest.value in w.rows
    requires found.Some? ==> found.value in w.rows
    requires Present(w).Some? && runtime.Some? ==> Lookup(w.rows, Present(w).value, runtime.value, found)
    ensures var view := Read(w, runtime, found, latest);
            && (view.state.Current? ==> runtime.Some? && Agrees(w, runtime.value, view))
            && (!view.state.Current? ==> view.result.None?)
  {
    ReachedInv(w);
    if Present(w).Some? && runtime.Some? && found.Some? && w.rows[found.value].state.Succeeded? {
      MatchingRowAgrees(w, runtime.value, found.value);
    }
  }

  /** `latest` is the row created last, by the larger id among equals; a claim expires a fixed time after it is made. */
  predicate IsLatest(rows: map<nat, Operation>, latest: Option<nat>) {
    if latest.None? then rows == map[]
    else
      && latest.value in rows
      && forall k :: k in rows ==>
           || rows[k].expiresAt < rows[latest.value].expiresAt
           || (rows[k].expiresAt == rows[latest.value].expiresAt && k <= latest.value)
  }

  /** The row that answers for the ticket as it is now. */
  predicate Matches(w: World, runtime: Option<Runtime>, k: nat) {
    Present(w).Some? && runtime.Some? && k in w.rows && HasKey(w.rows[k], Present(w).value, runtime.value)
  }

  /** What a reader is shown of a matching row. */
  predicate Shows(view: View, k: nat, op: Operation, now: int) {
    && view.operation == Some(k)
    && (view.state.Current? <==> op.state.Succeeded?)
    && (view.state.Running? <==> op.state.InProgress? && now < op.expiresAt)
    && (view.state.UnknownView? <==> op.state.Unknown? || (op.state.InProgress? && op.expiresAt <= now))
    && (view.state.FailedView? <==> op.state.Failed?)
    && (view.state.StaleView? <==> op.state.Stale?)
    && (if op.state.Succeeded? then op.outcome.Some? && view.result == Some(ClassificationResult(op.outcome.value, op.category))
        else view.result.None?)
    && view.error == (if op.state.InProgress? && op.expiresAt <= now then Some(ClassificationUnknown) else op.error)
  }

  lemma ViewShows(k: nat, op: Operation, now: int)
    requires RowInv(op)
    ensures Shows(ViewOf(k, op, now, true), k, op, now)
  {
  }

  /**
   Whatever a reader can be shown: the matching row if there is one, and then what it holds;
   otherwise the latest row as stale and without a result; otherwise that nothing was requested.
   */
  lemma ReadAnswers(w: World, runtime: Option<Runtime>, found: Option<nat>, latest: Option<nat>)
    requires Reached(w) && IsLatest(w.rows, latest)
    requires found.Some? ==> found.value in w.rows
    requires Present(w).Some? && runtime.Some? ==> Lookup(w.rows, Present(w).value, runtime.value, found)
    ensures var view := Read(w, runtime, found, latest);
            && (forall k :: Matches(w, runtime, k) ==> Shows(view, k, w.rows[k], w.now))
            && ((forall k :: !Matches(w, runtime, k)) ==>
                  if w.rows == map[] then view == View(NotRequested, None, None, None)
                  else view.state.StaleView? && view.operation == latest && view.result.None?)
  {
    ReachedInv(w);
    forall k | Matches(w, runtime, k) ensures Shows(Read(w, runtime, found, latest), k, w.rows[k], w.now) {
      assert found.Some? && HasKey(w.rows[found.value], Present(w).value, runtime.value);
      assert found == Some(k);
      ViewShows(k, w.rows[k], w.now);
    }
    if Present(w).Some? && runtime.Some? && found.Some? {
      assert Matches(w, runtime, found.value);
    }
  }

  /** A repeated classify answers from the table only with what it would compute itself. */
  lemma ReusedResultIsFaithful(w: World, call: nat, id: nat, runtime: Runtime, k: nat)
    requires Reached(w) && Enabled(w, Request(call, id, runtime, Some(k)))
    ensures var view := ViewOf(k, w.rows[k], w.now, true);
            view.state.Current? ==> Agrees(w, runtime, view)
  {
    ReachedInv(w);
    if w.rows[k].state.Succeeded? {
      MatchingRowAgrees(w, runtime, k);
    }
  }

  lemma CompleteSucceedsWhen(op: Operation, authorized: bool, changed: bool, now: int)
    ensures Complete(op, Classification(op.fingerprint, op.digest.script), authorized, changed, now).state.Succeeded? <==>
            authorized && now < op.expiresAt && !changed && Evaluate(op.fingerprint, op.digest.script).Ok?
  {
  }

  /** The row a concluding call leaves, in terms of its claim alone. */
  lemma ConcludedRow(w: World, call: nat, authorized: bool)
    requires Inv(w) && Enabled(w, Conclude(call, authorized))
    ensures var c := w.calls[call];
            var op, op' := w.rows[c.operation], Apply(w, Conclude(call, authorized)).rows[c.operation];
            && HasKey(op', c.fingerprint, c.runtime)
            && (op'.state.Succeeded? <==>
                  && op.state.InProgress? && authorized && w.now < op.expiresAt && Present(w) == Some(c.fingerprint)
                  && Evaluate(c.fingerprint, c.runtime.script).Ok?)
  {
    var c := w.calls[call];
    assert CallInv(w.rows, c);
    CompleteSucceedsWhen(w.rows[c.operation], authorized, Present(w) != Some(c.fingerprint), w.now);
  }

  /** Showing the row of a claim on the present input. */
  lemma ShownRow(w: World, c: Call)
    requires Inv(w) && c.operation in w.rows && HasKey(w.rows[c.operation], c.fingerprint, c.runtime)
    requires w.rows[c.operation].state.Succeeded? ==> Present(w) == Some(c.fingerprint)
    ensures var view := ViewOf(c.operation, w.rows[c.operation], w.now, true);
            && (view.state.Current? <==> w.rows[c.operation].state.Succeeded?)
            && (view.state.Current? ==> Agrees(w, c.runtime, view))
    ensures Present(w) == Some(c.fingerprint) ==>
              (Evaluate(c.fingerprint, c.runtime.script).Ok? <==>
               ClassifyOpeningRequest(w.ticket.value.subject, w.ticket.value.messages, c.runtime.script).Ok?)
  {
    if Present(w) == Some(c.fingerprint) {
      ClassifyIsEvaluate(w.ticket.value.subject, w.ticket.value.messages, c.runtime.script);
      if w.rows[c.operation].state.Succeeded? {
        MatchingRowAgrees(w, c.runtime, c.operation);
      }
    }
  }

  /**
   A finishing classify call shows a result exactly when nobody settled its claim first, it is still
   authorized and in time, the input is still the one it claimed, and the pure function succeeds on
   it; and then it shows that result.
   */
  lemma ConcludeIsFaithful(w: World, call: nat, authorized: bool)
    requires Reached(w) && Enabled(w, Conclude(call, authorized))
    ensures var c := w.calls[call];
            var w' := Apply(w, Conclude(call, authorized));
            var view := ViewOf(c.operation, w'.rows[c.operation], w'.now, true);
            && (view.state.Current? ==> Agrees(w', c.runtime, view))
            && (view.state.Current? <==>
                  && w.rows[c.operation].state.InProgress?
                  && authorized && w.now < w.rows[c.operation].expiresAt && Present(w) == Some(c.fingerprint)
                  && ClassifyOpeningRequest(w.ticket.value.subject, w.ticket.value.messages, c.runtime.script).Ok?)
  {
    ReachedInv(w);
    ConcludeKeepsInv(w, call, authorized);
    ConcludedRow(w, call, authorized);
    ShownRow(Apply(w, Conclude(call, authorized)), w.calls[call]);
  }

  /** Why a finishing call left its row as it did: the first reason that applies, and otherwise the pure answer. */
  lemma ConcludeExplains(w: World, call: nat, authorized: bool)
    requires Reached(w) && Enabled(w, Conclude(call, authorized)) && w.rows[w.calls[call].operation].state.InProgress?
    ensures var c := w.calls[call];
            var op, op' := w.rows[c.operation], Apply(w, Conclude(call, authorized)).rows[c.operation];
            && op'.completedAt == Some(w.now) && HasKey(op', c.fingerprint, c.runtime) && op'.expiresAt == op.expiresAt
            && if !authorized then op'.state.Failed? && op'.error == Some(AuthorizationChanged)
               else if op.expiresAt <= w.now then op'.state.Unknown? && op'.error == Some(ClassificationUnknown)
               else if Present(w) != Some(c.fingerprint) then op'.state.Stale? && op'.error == Some(InputChanged)
               else
                 match ClassifyOpeningRequest(w.ticket.value.subject, w.ticket.value.messages, c.runtime.script)
                 case Ok(r) => op'.state.Succeeded? && op'.outcome == Some(r.outcome) && op'.category == r.category
                 case Err(e) => FailsAs(op', e)
  {
    ReachedInv(w);
    CallKnows(w, call);
    var c := w.calls[call];
    if Present(w) == Some(c.fingerprint) {
      PreparedFromFingerprint(w.ticket.value.subject, w.ticket.value.messages);
    }
  }

  /** Timeouts and outages leave the outcome unknown; a provider that answered badly failed. */
  predicate FailsAs(op: Operation, e: ClassifyError) {
    match e
    case BadInput(_) => false
    case Provider(Timeout) => op.state.Unknown? && op.error == Some(ProviderFailure(Timeout))
    case Provider(Unavailable) => op.state.Unknown? && op.error == Some(ProviderFailure(Unavailable))
    case Provider(InputTooLarge) => op.state.Unknown? && op.error == Some(ProviderFailure(Unavailable))
    case Provider(RateLimited) => op.state.Failed? && op.error == Some(ProviderFailure(RateLimited))
    case Provider(Authentication) => op.state.Failed? && op.error == Some(ProviderFailure(Authentication))
    case Provider(InvalidOutput) => op.state.Failed? && op.error == Some(ProviderFailure(InvalidOutput))
  }

  /** A follow-up message never turns a current classification stale. */
  lemma FollowUpStaysCurrent(w: World, runtime: Runtime, k: nat, m: TicketMessage, all: seq<TicketMessage>)
    requires Reached(w) && Present(w).Some? && Lookup(w.rows, Present(w).value, runtime, Some(k))
    requires var before := w.ticket.value.messages;
             m.id !in Ids(before) && FollowUp(before, m) && multiset(all) == multiset(before + [m])
    ensures var w' := Apply(w, Edit(Some(w.ticket.value.(messages := all))));
            && Present(w').Some?
            && Lookup(w'.rows, Present(w').value, runtime, Some(k))
            && Read(w', Some(runtime), Some(k), None) == Read(w, Some(runtime), Some(k), None)
  {
    FollowUpKeepsInput(w.ticket.value.subject, w.ticket.value.messages, m, all);
  }

  // ------------------------------------------------------------------ once only

  /** One row per input and configuration, one provider call per row, one audit event per settled row. */
  lemma OneCallPerKey(w: World, j: nat, k: nat)
    requires Reached(w) && j in w.rows && k in w.rows
    ensures HasKey(w.rows[j], w.rows[k].fingerprint, w.rows[k].digest) ==> j == k
    ensures w.asked[k] <= 1 && (Insufficient(w.rows[k].fingerprint) ==> w.asked[k] == 0)
    ensures FinishedCount(w.audits, k) == (if w.rows[k].state.InProgress? then 0 else 1)
    ensures w.rows[k].outcome.Some? <==> w.rows[k].state.Succeeded?
    ensures w.rows[k].state.Succeeded? ==> (w.rows[k].outcome == Some(Classified) <==> w.rows[k].category.Some?)
    ensures !w.rows[k].state.Succeeded? ==> w.rows[k].category.None?
  {
    ReachedInv(w);
    assert RowInv(w.rows[k]);
    if k !in w.asked {
      assert w.asked[k] == 0;
    }
  }

  /** How a row may change while the clock goes from `now` on. */
  predicate RowGrows(op: Operation, op': Operation, now: int) {
    && HasKey(op', op.fingerprint, op.digest) && op'.expiresAt == op.expiresAt
    && (!op.state.InProgress? ==> op' == op)
    && (op.state.InProgress? && op.expiresAt <= now ==> !op'.state.Succeeded?)
  }

  lemma SettlingGrows(op: Operation, answer: Answer, authorized: bool, changed: bool, now: int)
    requires op.state.InProgress?
    ensures RowGrows(op, Complete(op, answer, authorized, changed, now), now)
    ensures RowGrows(op, Materialize(op, now), now)
  {
  }

  lemma ActionGrows(w: World, a: Action, k: nat)
    requires Enabled(w, a) && k in w.rows
    ensures k in Apply(w, a).rows && RowGrows(w.rows[k], Apply(w, a).rows[k], w.now)
    ensures w.now <= Apply(w, a).now
  {
    var op := w.rows[k];
    match a
    case Request(_, _, _, found) =>
      if op.state.InProgress? {
        SettlingGrows(op, Refused(Timeout), true, true, w.now);
      }
    case Conclude(call, authorized) =>
      if op.state.InProgress? {
        var c := w.calls[call];
        SettlingGrows(op, c.answer.value, authorized, Present(w) != Some(c.fingerprint), w.now);
      }
    case _ =>
  }

  lemma {:induction false} RunGrows(w: World, run: seq<Action>, k: nat)
    requires Inv(w) && ValidRun(w, run) && k in w.rows
    ensures k in After(w, run).rows && RowGrows(w.rows[k], After(w, run).rows[k], w.now)
    decreases |run|
  {
    if run != [] {
      ActionKeepsInv(w, run[0]);
      ActionGrows(w, run[0], k);
      RunGrows(Apply(w, run[0]), run[1..], k);
    }
  }

  /** Leaving in_progress is final. */
  lemma SettledForever(w: World, run: seq<Action>, k: nat)
    requires Reached(w) && ValidRun(w, run) && k in w.rows && !w.rows[k].state.InProgress?
    ensures k in After(w, run).rows && After(w, run).rows[k] == w.rows[k]
  {
    ReachedInv(w);
    RunGrows(w, run, k);
  }

  /** A new claim is running for thirty seconds and unknown from then on, until somebody settles it. */
  lemma ClaimLasts(w: World, call: nat, id: nat, runtime: Runtime, run: seq<Action>)
    requires Reached(w) && Enabled(w, Request(call, id, runtime, None))
    requires ValidRun(Apply(w, Request(call, id, runtime, None)), run)
    ensures var later := After(Apply(w, Request(call, id, runtime, None)), run);
            && id in later.rows && HasKey(later.rows[id], Present(w).value, runtime)
            && (later.rows[id].state.InProgress? ==>
                  ViewOf(id, later.rows[id], later.now, true).state
                  == if later.now < w.now + 30_000_000 then Running else UnknownView)
            && (later.rows[id].state.Succeeded? ==>
                  later.rows[id].completedAt.Some? && later.rows[id].completedAt.value < w.now + 30_000_000)
  {
    ReachedInv(w);
    var claimed := Apply(w, Request(call, id, runtime, None));
    ActionKeepsInv(w, Request(call, id, runtime, None));
    RunGrows(claimed, run, id);
    RunKeepsInv(claimed, run);
    assert RowInv(After(claimed, run).rows[id]);
  }

  /** A repeated classify writes an expired claim down as unknown, once, and changes nothing else. */
  lemma RepeatMaterializes(w: World, call: nat, id: nat, runtime: Runtime, k: nat)
    requires Reached(w) && Enabled(w, Request(call, id, runtime, Some(k)))
    ensures var w', op := Apply(w, Request(call, id, runtime, Some(k))), w.rows[k];
            if op.state.InProgress? && op.expiresAt <= w.now then
              && w'.rows[k].state.Unknown? && w'.rows[k].error == Some(ClassificationUnknown)
              && w'.rows[k].completedAt == Some(w.now) && HasKey(w'.rows[k], op.fingerprint, op.digest)
              && w'.rows - {k} == w.rows - {k} && w'.audits == w.audits + [Finished(k, Unknown)]
              && w'.calls == w.calls && w'.asked == w.asked
            else w' == w
  {
  }

  /** Once anyone has been shown an operation as unknown, nobody is ever shown a result for it. */
  lemma UnknownNeverBecomesResult(w: World, run: seq<Action>, k: nat, matches: bool)
    requires Reached(w) && ValidRun(w, run) && k in w.rows
    requires ViewOf(k, w.rows[k], w.now, true).state.UnknownView?
    ensures k in After(w, run).rows && ViewOf(k, After(w, run).rows[k], After(w, run).now, matches).result.None?
  {
    ReachedInv(w);
    RunGrows(w, run, k);
  }
}
