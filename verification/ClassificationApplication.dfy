/**
 The claim table of app/classification/application.py: one row per ticket, input and configuration,
 two transactions around an unlocked provider call, and views that expire.
 */
module ClassificationApplication {
  import opened Base
  import opened ClassificationInput
  import opened ClassificationService

  /** What the configuration digest hashes. A hash without collisions is its argument. */
  datatype Runtime = Runtime(version: string, script: Script)

  datatype State = InProgress | Succeeded | Stale | Failed | Unknown

  datatype ErrorCode =
    | ProviderFailure(error: ProviderError)
    | AuthorizationChanged
    | InputChanged
    | ClassificationUnknown

  datatype Operation = Operation(
    fingerprint: Fingerprint,
    digest: Runtime,
    attempts: nat,
    expiresAt: int,
    state: State,
    outcome: Option<Outcome>,
    category: Option<Category>,
    error: Option<ErrorCode>,
    completedAt: Option<int>)

  const CLAIM_SECONDS: int := 30

  datatype ViewState = NotRequested | Current | StaleView | Running | FailedView | UnknownView

  datatype View = View(
    state: ViewState,
    operation: Option<nat>,
    result: Option<ClassificationResult>,
    error: Option<ErrorCode>)

  /** The state a reader is shown: an expired claim already reads as unknown. */
  function ShownState(op: Operation, now: int, matches: bool): ViewState {
    if !matches then StaleView
    else
      match op.state
      case InProgress => if op.expiresAt <= now then UnknownView else Running
      case Succeeded => Current
      case Stale => StaleView
      case Failed => FailedView
      case Unknown => UnknownView
  }

  /** Only a current view carries a result. */
  function ViewOf(id: nat, op: Operation, now: int, matches: bool): View {
    var state := ShownState(op, now, matches);
    View(state, Some(id), if state.Current? && op.outcome.Some?
                          then Some(ClassificationResult(op.outcome.value, op.category)) else None,
         if op.state.InProgress? && op.expiresAt <= now then Some(ClassificationUnknown) else op.error)
  }

  function NewOperation(f: Fingerprint, digest: Runtime, now: int): Operation {
    Operation(f, digest, if Insufficient(f) then 0 else 1, now + Seconds(CLAIM_SECONDS), InProgress, None, None, None, None)
  }

  /** A POST that finds an expired claim writes down what readers already see. */
  function Materialize(op: Operation, now: int): Operation {
    op.(state := Unknown, error := Some(ClassificationUnknown), completedAt := Some(now))
  }

  /** How the provider call went, as the second transaction sees it. */
  datatype Answer =
    | Answered(result: ClassificationResult)
    | Refused(error: ProviderError)
    | Uncertain(error: ProviderError)

  function Classification(f: Fingerprint, script: Script): Answer {
    match Evaluate(f, script)
    case Ok(r) => Answered(r)
    case Err(e) =>
      match e
      case Timeout => Uncertain(Timeout)
      case Unavailable => Uncertain(Unavailable)
      case InputTooLarge => Uncertain(Unavailable)   // any other exception counts as unavailable
      case _ => Refused(e)
  }

  function Complete(op: Operation, answer: Answer, authorized: bool, changed: bool, now: int): Operation {
    var done := op.(completedAt := Some(now));
    if !authorized then
      done.(state := Failed, error := Some(AuthorizationChanged))
    else if op.expiresAt <= now then
      done.(state := Unknown, error := Some(ClassificationUnknown))
    else if changed then
      done.(state := Stale, error := Some(InputChanged))
    else
      match answer
      case Answered(r) => done.(state := Succeeded, outcome := Some(r.outcome), category := r.category)
      case Refused(e) => done.(state := Failed, error := Some(ProviderFailure(e)))
      case Uncertain(e) => done.(state := Unknown, error := Some(ProviderFailure(e)))
  }

  /** A finished audit event names the operation and the state it was left in. */
  datatype Finished = Finished(operation: nat, state: State)

  /** The rows of one ticket. */
  class OperationTable {
    var rows: map<nat, Operation>
    var audits: seq<Finished>

    constructor ()
      ensures rows == map[] && audits == []
    {
      rows, audits := map[], [];
    }

    /** First transaction: show the matching row, or claim the work under a fresh id. */
    method Begin(id: nat, f: Fingerprint, runtime: Runtime, match_: Option<nat>, now: int)
      returns (shown: Option<View>)
      requires id !in rows
      requires match_.Some? ==> match_.value in rows
      modifies this
      ensures match_.None? ==>
        shown == None && rows == old(rows)[id := NewOperation(f, runtime, now)] && audits == old(audits)
      ensures match_.Some? ==>
        var k := match_.value;
        var op := old(rows)[k];
        var expired := op.state.InProgress? && op.expiresAt <= now;
        && shown == Some(ViewOf(k, op, now, true))
        && rows == old(rows)[k := if expired then Materialize(op, now) else op]
        && audits == old(audits) + if expired then [Finished(k, Unknown)] else []
    {
      if match_.Some? {
        var k := match_.value;
        var existing := rows[k];
        var view := ViewOf(k, existing, now, true);
        if view.state.UnknownView? && existing.state.InProgress? {
          existing := existing.(state := Unknown, error := Some(ClassificationUnknown));
          existing := existing.(completedAt := Some(now));
          audits := audits + [Finished(k, Unknown)];
        }
        rows := rows[k := existing];
        return Some(view);
      }
      rows := rows[id := Operation(f, runtime, if Insufficient(f) then 0 else 1, now + Seconds(CLAIM_SECONDS),
                                   InProgress, None, None, None, None)];
      return None;
    }

    /** Second transaction: settle the claim unless someone else already has. */
    method Settle(id: nat, answer: Answer, authorized: bool, changed: bool, now: int) returns (view: View)
      requires id in rows
      modifies this
      ensures var op := old(rows)[id];
              if op.state.InProgress? then
                && rows == old(rows)[id := Complete(op, answer, authorized, changed, now)]
                && audits == old(audits) + [Finished(id, rows[id].state)]
                && view == ViewOf(id, rows[id], now, true)
              else rows == old(rows) && audits == old(audits) && view == ViewOf(id, op, now, true)
    {
      var operation := rows[id];
      if !operation.state.InProgress? {
        return ViewOf(id, operation, now, true);
      }
      operation := operation.(completedAt := Some(now));
      if !authorized {
        operation := operation.(state := Failed, error := Some(AuthorizationChanged));
      } else if operation.expiresAt <= now {
        operation := operation.(state := Unknown, error := Some(ClassificationUnknown));
      } else if changed {
        operation := operation.(state := Stale, error := Some(InputChanged));
      } else if answer.Answered? {
        operation := operation.(state := Succeeded);
        operation := operation.(outcome := Some(answer.result.outcome), category := answer.result.category);
      } else {
        operation := operation.(state := if answer.Uncertain? then Unknown else Failed,
                                error := Some(ProviderFailure(answer.error)));
      }
      rows := rows[id := operation];
      audits := audits + [Finished(id, operation.state)];
      return ViewOf(id, operation, now, true);
    }
  }
}
