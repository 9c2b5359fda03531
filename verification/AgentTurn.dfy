/**
 * The two reducers a Thread agent is built on: the harness turn
 * (packages/daemon/src/agent-turn.ts) and the accepted submission
 * (packages/schema/src/agent-submission.ts).
 */
module AgentTurn {

  datatype Turn = TurnIdle | Starting(cancelled: bool) | TurnRunning | Stopping
  datatype TurnEvent = Start | Ready | Stop | Finished

  function StepTurn(t: Turn, e: TurnEvent): Turn {
    match e
    case Start => if t.TurnIdle? then Starting(false) else t
    case Ready => if t.Starting? then (if t.cancelled then TurnIdle else TurnRunning) else t
    case Stop =>
      if t.Starting? then Starting(true)
      else if t.TurnRunning? then Stopping
      else t
    case Finished => TurnIdle
  }

  predicate Cancelled(t: Turn) {
    t.Stopping? || (t.Starting? && t.cancelled)
  }

  function RunTurn(t: Turn, es: seq<TurnEvent>): Turn
    decreases es
  {
    if es == [] then t else RunTurn(StepTurn(t, es[0]), es[1..])
  }

  /** A stop is never lost: until a new turn starts or this one finishes, whatever else happens leaves
      the turn cancelled, or idle because readiness consumed the cancellation. */
  lemma {:induction false} StopIsKept(t: Turn, es: seq<TurnEvent>)
    requires Cancelled(t) || t.TurnIdle?
    requires Start !in es && Finished !in es
    ensures Cancelled(RunTurn(t, es)) || RunTurn(t, es).TurnIdle?
    ensures t.TurnIdle? ==> RunTurn(t, es).TurnIdle?
    ensures t.Stopping? ==> RunTurn(t, es).Stopping?
    decreases es
  {
    if es != [] { StopIsKept(StepTurn(t, es[0]), es[1..]); }
  }

  datatype Status = Draft | Queued | Running | Completed | Failed
  datatype SubmissionEvent = Submit | Begin | Complete | Fail | Retry | Edit

  function StepSubmission(s: Status, e: SubmissionEvent, hasInput: bool): Status {
    match e
    case Submit => if s == Draft && hasInput then Queued else s
    case Begin => if s == Queued then Running else s
    case Complete => if s == Running then Completed else s
    case Fail => if s == Running then Failed else s
    case Retry => if s == Failed then Queued else s
    case Edit => s
  }

  function RunSubmission(s: Status, es: seq<(SubmissionEvent, bool)>): Status
    decreases es
  {
    if es == [] then s else RunSubmission(StepSubmission(s, es[0].0, es[0].1), es[1..])
  }

  /** Accepted input stays accepted under any events, and a completed one never runs again. */
  lemma {:induction false} AcceptedStaysAccepted(s: Status, es: seq<(SubmissionEvent, bool)>)
    requires s != Draft
    ensures RunSubmission(s, es) != Draft
    ensures s == Completed ==> RunSubmission(s, es) == Completed
    decreases es
  {
    if es != [] { AcceptedStaysAccepted(StepSubmission(s, es[0].0, es[0].1), es[1..]); }
  }
}
