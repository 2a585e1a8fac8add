/**
 Concurrent classify calls, crashes, expiries and ticket edits around one ticket's claim table, and
 why the table is a faithful cache of the pure classification.
 */
module ClassificationProtocol {
  import opened Base
  import opened ClassificationInput
  import opened ClassificationService
  import opened ClassificationApplication

  datatype Ticket = Ticket(subject: string, messages: seq<TicketMessage>)

  /** A classify call between its two transactions. */
  datatype Call = Call(operation: nat, fingerprint: Fingerprint, runtime: Runtime, answer: Option<Answer>)

  datatype World = World(
    now: int,
    ticket: Option<Ticket>,
    rows: map<nat, Operation>,
    audits: seq<Finished>,
    calls: map<nat, Call>,
    asked: multiset<nat>)        // provider invocations, by operation

  datatype Action =
    | Advance(to: int)
    | Edit(ticket: Option<Ticket>)
    | Request(call: nat, id: nat, runtime: Runtime, found: Option<nat>)
    | Invoke(call: nat)
    | Conclude(call: nat, authorized: bool)
    | Abandon(call: nat)

  predicate HasKey(op: Operation, f: Fingerprint, digest: Runtime) {
    op.fingerprint == f && op.digest == digest
  }

  /** `found` is what the unique-key lookup returns. */
  predicate Lookup(rows: map<nat, Operation>, f: Fingerprint, digest: Runtime, found: Option<nat>) {
    if found.Some? then found.value in rows && HasKey(rows[found.value], f, digest)
    else forall k :: k in rows ==> !HasKey(rows[k], f, digest)
  }

  /** The ticket's present input, if it can be prepared. */
  function Present(w: World): Option<Fingerprint> {
    if w.ticket.None? then None
    else
      var prepared := PrepareInput(w.ticket.value.subject, w.ticket.value.messages);
      if prepared.Ok? then Some(prepared.value.fingerprint) else None
  }

  predicate Enabled(w: World, a: Action) {
    match a
    case Advance(to) => w.now <= to
    case Edit(_) => true
    case Request(call, id, runtime, found) =>
      call !in w.calls && id !in w.rows && Present(w).Some? && Lookup(w.rows, Present(w).value, runtime, found)
    case Invoke(call) => call in w.calls && w.calls[call].answer.None?
    case Conclude(call, _) => call in w.calls && w.calls[call].answer.Some? && w.calls[call].operation in w.rows
    case Abandon(call) => call in w.calls
  }

  function Apply(w: World, a: Action): World
    requires Enabled(w, a)
  {
    match a
    case Advance(to) => w.(now := to)
    case Edit(ticket) => w.(ticket := ticket)
    case Request(call, id, runtime, found) =>
      if found.None? then
        Claim(w, call, id, Present(w).value, runtime)
      else
        var op := w.rows[found.value];
        if op.state.InProgress? && op.expiresAt <= w.now
        then Finish(w, found.value, Materialize(op, w.now))
        else w
    case Invoke(call) =>
      var c := w.calls[call];
      w.(calls := w.calls[call := c.(answer := Some(Classification(c.fingerprint, c.runtime.script)))],
         asked := if Insufficient(c.fingerprint) then w.asked else w.asked + multiset{c.operation})
    case Conclude(call, authorized) =>
      var c := w.calls[call];
      var op := w.rows[c.operation];
      var left := w.(calls := w.calls - {call});
      if op.state.InProgress?
      then Finish(left, c.operation, Complete(op, c.answer.value, authorized, Present(w) != Some(c.fingerprint), w.now))
      else left
    case Abandon(call) => w.(calls := w.calls - {call})
  }

  function Claim(w: World, call: nat, id: nat, f: Fingerprint, runtime: Runtime): World {
    w.(rows := w.rows[id := NewOperation(f, runtime, w.now)], calls := w.calls[call := Call(id, f, runtime, None)])
  }

  function Finish(w: World, id: nat, op: Operation): World {
    w.(rows := w.rows[id := op], audits := w.audits + [Finished(id, op.state)])
  }

  // ------------------------------------------------------------------ invariant

  function FinishedCount(audits: seq<Finished>, id: nat): nat {
    if audits == [] then 0
    else FinishedCount(audits[..|audits| - 1], id) + (if audits[|audits| - 1].operation == id then 1 else 0)
  }

  /** The row's own consistency, and a success is what the pure function says. */
  predicate RowInv(op: Operation) {
    && (op.state.InProgress? <==> op.completedAt.None?)
    && (!op.state.Succeeded? ==> op.outcome.None? && op.category.None?)
    && (op.state.Succeeded? ==>
          && op.outcome.Some? && op.error.None? && op.completedAt.value < op.expiresAt
          && Legal(ClassificationResult(op.outcome.value, op.category))
          && Evaluate(op.fingerprint, op.digest.script) == Ok(ClassificationResult(op.outcome.value, op.category)))
    && (op.state.InProgress? ==> op.error.None?)
    && op.attempts == (if Insufficient(op.fingerprint) then 0 else 1)
  }

  predicate CallInv(rows: map<nat, Operation>, c: Call) {
    && c.operation in rows && HasKey(rows[c.operation], c.fingerprint, c.runtime)
    && !rows[c.operation].state.Succeeded?
    && (c.answer.Some? ==> c.answer.value == Classification(c.fingerprint, c.runtime.script))
  }

  ghost predicate RowsInv(rows: map<nat, Operation>) {
    && (forall k :: k in rows ==> RowInv(rows[k]))
    && (forall j, k :: j in rows && k in rows && HasKey(rows[j], rows[k].fingerprint, rows[k].digest) ==> j == k)
  }

  ghost predicate CallsInv(rows: map<nat, Operation>, calls: map<nat, Call>, asked: multiset<nat>) {
    && (forall c :: c in calls ==> CallInv(rows, calls[c]))
    && (forall c, d :: c in calls && d in calls && calls[c].operation == calls[d].operation ==> c == d)
    && (forall c :: c in calls && calls[c].answer.None? ==> asked[calls[c].operation] == 0)
    && (forall k :: k in asked ==> k in rows && asked[k] <= rows[k].attempts)
  }

  ghost predicate AuditInv(rows: map<nat, Operation>, audits: seq<Finished>) {
    && (forall id :: FinishedCount(audits, id) == if id in rows && !rows[id].state.InProgress? then 1 else 0)
    && (forall e :: e in audits ==> e.operation in rows && rows[e.operation].state == e.state)
  }

  ghost predicate Inv(w: World) {
    RowsInv(w.rows) && CallsInv(w.rows, w.calls, w.asked) && AuditInv(w.rows, w.audits)
  }

  lemma CompleteKeepsRow(op: Operation, authorized: bool, changed: bool, now: int)
    requires RowInv(op) && op.state.InProgress?
    ensures var op' := Complete(op, Classification(op.fingerprint, op.digest.script), authorized, changed, now);
            RowInv(op') && !op'.state.InProgress? && HasKey(op', op.fingerprint, op.digest) && op'.attempts == op.attempts
  {
    if op.digest.script.Reply? {
      ParsedIsLegal(op.digest.script.raw);
    }
  }

  lemma FinishKeepsAudit(rows: map<nat, Operation>, audits: seq<Finished>, id: nat, op: Operation)
    requires AuditInv(rows, audits) && id in rows && rows[id].state.InProgress? && !op.state.InProgress?
    ensures AuditInv(rows[id := op], audits + [Finished(id, op.state)])
  {
    var audits' := audits + [Finished(id, op.state)];
    assert audits'[..|audits|] == audits;
    assert forall k :: FinishedCount(audits', k) == FinishedCount(audits, k) + if k == id then 1 else 0;
    NotFinished(audits, id);
  }

  lemma FinishKeepsRows(rows: map<nat, Operation>, id: nat, op: Operation)
    requires RowsInv(rows) && id in rows && RowInv(op) && HasKey(op, rows[id].fingerprint, rows[id].digest)
    ensures RowsInv(rows[id := op])
  {
  }

  lemma FinishKeepsCalls(rows: map<nat, Operation>, calls: map<nat, Call>, asked: multiset<nat>, id: nat, op: Operation)
    requires CallsInv(rows, calls, asked) && id in rows
    requires HasKey(op, rows[id].fingerprint, rows[id].digest) && op.attempts == rows[id].attempts
    requires op.state.Succeeded? ==> forall c :: c in calls ==> calls[c].operation != id
    ensures CallsInv(rows[id := op], calls, asked)
  {
    forall c | c in calls ensures CallInv(rows[id := op], calls[c]) {
      assert CallInv(rows, calls[c]);
    }
  }

  /** Writing the outcome of a claim once keeps rows, calls and audit trail in step. */
  lemma FinishKeepsInv(w: World, id: nat, op: Operation)
    requires Inv(w) && id in w.rows && w.rows[id].state.InProgress? && !op.state.InProgress?
    requires RowInv(op) && HasKey(op, w.rows[id].fingerprint, w.rows[id].digest) && op.attempts == w.rows[id].attempts
    requires op.state.Succeeded? ==> forall c :: c in w.calls ==> w.calls[c].operation != id
    ensures Inv(Finish(w, id, op))
  {
    FinishKeepsAudit(w.rows, w.audits, id, op);
    FinishKeepsRows(w.rows, id, op);
    FinishKeepsCalls(w.rows, w.calls, w.asked, id, op);
  }

  lemma {:induction false} NotFinished(audits: seq<Finished>, id: nat)
    requires FinishedCount(audits, id) == 0
    ensures forall e :: e in audits ==> e.operation != id
  {
    if audits != [] {
      NotFinished(audits[..|audits| - 1], id);
      assert audits == audits[..|audits| - 1] + [audits[|audits| - 1]];
    }
  }

  lemma ClaimKeepsRows(rows: map<nat, Operation>, id: nat, f: Fingerprint, runtime: Runtime, now: int)
    requires RowsInv(rows) && id !in rows && Lookup(rows, f, runtime, None)
    ensures RowsInv(rows[id := NewOperation(f, runtime, now)])
  {
  }

  lemma ClaimKeepsCalls(w: World, call: nat, id: nat, f: Fingerprint, runtime: Runtime)
    requires CallsInv(w.rows, w.calls, w.asked) && id !in w.rows && call !in w.calls
    ensures var w' := Claim(w, call, id, f, runtime); CallsInv(w'.rows, w'.calls, w'.asked)
  {
    assert id !in w.asked;
    assert forall c :: c in w.calls ==> CallInv(w.rows, w.calls[c]) && w.calls[c].operation != id;
  }

  lemma ClaimKeepsAudit(rows: map<nat, Operation>, audits: seq<Finished>, id: nat, op: Operation)
    requires AuditInv(rows, audits) && id !in rows && op.state.InProgress?
    ensures AuditInv(rows[id := op], audits)
  {
  }

  lemma InvokeKeepsCalls(rows: map<nat, Operation>, calls: map<nat, Call>, asked: multiset<nat>, call: nat)
    requires CallsInv(rows, calls, asked) && RowsInv(rows) && call in calls && calls[call].answer.None?
    ensures var c := calls[call];
            CallsInv(rows, calls[call := c.(answer := Some(Classification(c.fingerprint, c.runtime.script)))],
                     if Insufficient(c.fingerprint) then asked else asked + multiset{c.operation})
  {
    var c := calls[call];
    assert CallInv(rows, c) && RowInv(rows[c.operation]);
  }

  lemma LeavingKeepsInv(w: World, call: nat)
    requires Inv(w)
    ensures Inv(w.(calls := w.calls - {call}))
  {
  }

  /** What a call knows about its claim: its own answer, and that nobody else works on it. */
  lemma CallKnows(w: World, call: nat)
    requires Inv(w) && call in w.calls
    ensures var c := w.calls[call];
            && c.operation in w.rows && RowInv(w.rows[c.operation])
            && HasKey(w.rows[c.operation], c.fingerprint, c.runtime)
            && (c.answer.Some? ==> c.answer.value == Classification(c.fingerprint, c.runtime.script))
            && forall other :: other in w.calls && other != call ==> w.calls[other].operation != c.operation
  {
    assert CallInv(w.rows, w.calls[call]);
  }

  lemma ConcludeKeepsInv(w: World, call: nat, authorized: bool)
    requires Inv(w) && Enabled(w, Conclude(call, authorized))
    ensures Inv(Apply(w, Conclude(call, authorized)))
  {
    var c := w.calls[call];
    var op := w.rows[c.operation];
    LeavingKeepsInv(w, call);
    if op.state.InProgress? {
      CallKnows(w, call);
      var changed := Present(w) != Some(c.fingerprint);
      CompleteKeepsRow(op, authorized, changed, w.now);
      FinishKeepsInv(w.(calls := w.calls - {call}), c.operation,
                     Complete(op, c.answer.value, authorized, changed, w.now));
    }
  }

  lemma ActionKeepsInv(w: World, a: Action)
    requires Inv(w) && Enabled(w, a)
    ensures Inv(Apply(w, a))
  {
    match a
    case Advance(_) =>
    case Edit(_) =>
    case Request(call, id, runtime, found) =>
      if found.None? {
        var f := Present(w).value;
        ClaimKeepsRows(w.rows, id, f, runtime, w.now);
        ClaimKeepsCalls(w, call, id, f, runtime);
        ClaimKeepsAudit(w.rows, w.audits, id, NewOperation(f, runtime, w.now));
      } else {
        var op := w.rows[found.value];
        if op.state.InProgress? && op.expiresAt <= w.now {
          FinishKeepsInv(w, found.value, Materialize(op, w.now));
        }
      }
    case Invoke(call) => InvokeKeepsCalls(w.rows, w.calls, w.asked, call);
    case Conclude(call, authorized) => ConcludeKeepsInv(w, call, authorized);
    case Abandon(call) => LeavingKeepsInv(w, call);
  }
}
