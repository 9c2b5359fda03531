/**
 * The Thread agent as a step machine (packages/daemon/src/thread-agent.ts). A step ends where the
 * source saves or awaits, so a crash can fall between any two steps; `disk` is what the last completed
 * save wrote. Steps that cannot happen in a state leave it unchanged.
 */
module AgentMachine {
  import opened Common
  import opened Text
  import opened AgentTurn
  import opened Transcript
  import opened Receipts
  import opened AgentQueue

  /** Harness adapters by identity; `fallback` is the adapter of a Thread without a harness yet. */
  datatype Config = Config(adapters: set<string>, durable: set<string>, fallback: string)

  datatype RunStage = RunConnecting | RunPrompting

  /** The suspended `run` of one submission. `linked` says its submission reference still points into
      the live queue: a rollback replaces the queue by a copy, and then it no longer does. */
  datatype Run = Run(id: Id, attempt: Option<Id>, text: string, linked: bool, stage: RunStage)

  /** The harness connection; `summary` is set while its output is a handoff text. */
  datatype Active = Active(turn: Turn, turnId: Id, attempt: Option<Id>, summary: bool)

  datatype MoveStage =
    | NeedsSummary
    | SourceReady
    | Summarizing
    | HasText(text: string)
    | Retiring(text: string, session: Option<string>)
    | Retargeted(text: string)
    | TargetReady(text: string)
    | Failing

  /** The suspended `performHandoff`. */
  datatype Move = Move(stage: MoveStage, intent: Handoff, original: Option<Harness>)

  /** One prompt handed to a harness under a request ID. */
  datatype Dispatch = Dispatch(request: Id, text: string, harness: string)

  datatype Machine = Machine(
    mem: AgentState, disk: AgentState, active: Option<Active>, retiring: bool,
    run: Option<Run>, move: Option<Move>, next: nat, sent: seq<Dispatch>)

  const START := Machine(INITIAL, INITIAL, None, false, None, None, 0, [])

  datatype MoveStep =
    | ConnectSource(session: string)
    | AskSummary(rendered: string)
    | TakeSummary(text: string)
    | Prepare
    | Retarget
    | ConnectTarget(session: string)
    | Complete
    | FailMove
    | Restore

  datatype Event =
    | AcceptPrompt(prompt: PromptRequest, review: Review, saved: bool)
    | Drain(rendered: string, saved: bool)
    | Connected(session: string)
    | Finish(outcome: Outcome)
    | RunFail
    | Retired
    | Flush
    | Cancel
    | AskPermission(request: string)
    | AnswerPermission(request: string)
    | TextEvent(name: Option<string>, text: string, replace: bool)
    | SaveComment(comment: Id, body: string, quote: string)
    | SwitchHarness(target: string)
    | MoveOn(step: MoveStep)
    | Crash

  // ---- adapters ----

  function HarnessId(cfg: Config, s: AgentState): string {
    if s.harness.Some? then s.harness.value.id else cfg.fallback
  }

  predicate Available(cfg: Config, s: AgentState) {
    HarnessId(cfg, s) in cfg.adapters || HarnessId(cfg, s) == cfg.fallback
  }

  predicate Recoverable(cfg: Config, s: AgentState) {
    Available(cfg, s) && HarnessId(cfg, s) in cfg.durable
  }

  // ---- save, crash and reload ----

  function Save(m: Machine): Machine {
    m.(mem := Settle(m.mem), disk := Settle(m.mem))
  }

  predicate Busy(s: AgentState) {
    s.phase.PhaseRunning? || s.phase.PhasePermission?
  }

  predicate Interrupted(s: AgentState) {
    Busy(s) || exists i :: 0 <= i < |s.submissions| && s.submissions[i].status in {Queued, Running}
  }

  function ResetSubmissions(subs: seq<Submission>, recoverable: bool): (out: seq<Submission>)
    ensures |out| == |subs|
  {
    seq(|subs|, i requires 0 <= i < |subs| =>
      if subs[i].status in {Queued, Running}
      then subs[i].(status := if recoverable then Queued else Failed)
      else subs[i])
  }

  /** `get` on a record that is not in memory. */
  function Reload(cfg: Config, disk: AgentState): AgentState {
    if Interrupted(disk) then
      Settle(disk.(phase := if Recoverable(cfg, disk) then PhaseIdle else PhaseFailed,
                   submissions := ResetSubmissions(disk.submissions, Recoverable(cfg, disk))))
    else Settle(disk)
  }

  function CrashAndReload(cfg: Config, m: Machine): Machine {
    m.(mem := Reload(cfg, m.disk), active := None, retiring := false, run := None, move := None)
  }

  // ---- prompting ----

  datatype PromptOutcome = Repeated | Accepted | Refused(why: Refusal) | RolledBack(cause: Refusal)

  /** restoreAgentState puts back equal values, but as copies: a suspended run loses its link. */
  function Unlink(m: Machine): Machine {
    if m.run.Some? then m.(run := Some(m.run.value.(linked := false))) else m
  }

  function Prompted(cfg: Config, m: Machine, p: PromptRequest, review: Review, saved: bool): (Machine, PromptOutcome) {
    match FindReceipt(m.mem.receipts, p)
    case Err(e) => (m, Refused(e))
    case Ok(Some(_)) => (m, Repeated)
    case Ok(None) =>
      if !review.pending then (m, Refused(ReviewResolved))
      else if !Available(cfg, m.mem) then (m, Refused(HarnessUnavailable))
      else
        match Accept(m.mem, p, review, m.next, cfg.fallback)
        case Err(e) => (Unlink(m), RolledBack(e))
        case Ok(s) =>
          if saved then (Save(m.(mem := s, next := m.next + Minted(m.mem, review))), Accepted)
          else (Unlink(m), RolledBack(SaveFailed))
  }

  // ---- draining ----

  function Continue(handoff: string, prompt: string): string {
    "Continuation context from the previous harness:\n" + handoff + "\n\nCurrent request:\n" + prompt
  }

  function FirstQueued(subs: seq<Submission>): (n: nat)
    ensures n <= |subs|
    ensures n < |subs| ==> subs[n].status == Queued
    ensures forall i :: 0 <= i < n ==> subs[i].status != Queued
  {
    FirstWhere(subs, (q: Submission) => q.status == Queued)
  }

  /** What the harness is told; `rendered` stands for the prompt built from the conversation so far. */
  function StartText(s: AgentState, q: Submission, rendered: string): string {
    var prompt := q.harnessPrompt.GetOr(rendered);
    if s.continuation.Some? then Continue(s.continuation.value, prompt) else prompt
  }

  function Connect(active: Option<Active>, turnId: Id): Option<Active> {
    if active.None? then Some(Active(Starting(false), turnId, None, false))
    else Some(active.value.(turn := StepTurn(StepTurn(active.value.turn, Start), Ready)))
  }

  predicate CanDrain(m: Machine) {
    !Busy(m.mem) && !m.retiring
  }

  function StartSubmission(m: Machine, n: nat, rendered: string): Machine
    requires n < |m.mem.submissions|
  {
    var q := m.mem.submissions[n];
    var text := StartText(m.mem, q, rendered);
    var started := q.(status := StepSubmission(q.status, Begin, true), harnessPrompt := Some(text));
    Save(m.(mem := m.mem.(submissions := m.mem.submissions[n := started],
                          phase := PhaseRunning, continuation := None),
            run := Some(Run(q.id, q.attempt, text, true, RunConnecting)),
            active := Connect(m.active, q.id)))
  }

  /** A queued handoff whose newest requested target replaces its target. */
  function Coalesced(h: Handoff): Handoff {
    if h.stage.HandoffQueued? && h.requested.Some? then h.(target := h.requested.value, requested := None) else h
  }

  predicate Drops(cfg: Config, s: AgentState, h: Handoff) {
    h.stage.HandoffQueued? && h.requested.Some? && HarnessId(cfg, s) == h.requested.value
  }

  function StartMove(m: Machine, h: Handoff): Machine {
    var original := if h.stage.HandoffQueued? then m.mem.harness else h.source;
    var stage := if h.stage.HandoffPrepared? then HasText(h.stage.text)
                 else if m.mem.messages == [] then HasText("")
                 else NeedsSummary;
    Save(m.(mem := m.mem.(handoff := Some(h), phase := PhaseRunning),
            move := Some(Move(stage, h.(source := original), original)),
            active := if stage.NeedsSummary? then Connect(m.active, h.operation) else m.active))
  }

  /** One save's worth of `drain`: drop or begin the handoff, or start the first queued submission. A
      failed save restores the state it started from. */
  function Drained(cfg: Config, m: Machine, rendered: string, saved: bool): Machine {
    if !CanDrain(m) then m
    else if m.mem.handoff.Some? then
      var h := m.mem.handoff.value;
      if Drops(cfg, m.mem, h) then Save(m.(mem := m.mem.(handoff := None)))
      else StartMove(m, Coalesced(h))
    else
      var n := FirstQueued(m.mem.submissions);
      if n == |m.mem.submissions| || !saved then m else StartSubmission(m, n, rendered)
  }

  // ---- the run of one submission ----

  /** What a thrown error does to the run's submission. */
  function Failer(): Submission -> Submission {
    (q: Submission) => q.(status := Failed)
  }

  function UpdateSubmission(subs: seq<Submission>, id: Id, f: Submission -> Submission): (out: seq<Submission>)
    ensures |out| == |subs|
  {
    var n := IndexOfSubmission(subs, id);
    if n < |subs| then subs[n := f(subs[n])] else subs
  }

  /** Updates the run's own submission object: invisible in the queue once the link is lost. */
  function UpdateRun(m: Machine, f: Submission -> Submission): seq<Submission>
    requires m.run.Some?
  {
    if m.run.value.linked then UpdateSubmission(m.mem.submissions, m.run.value.id, f) else m.mem.submissions
  }

  function SetHarness(cfg: Config, m: Machine, session: string): Machine {
    Save(m.(mem := m.mem.(harness := Some(Harness(HarnessId(cfg, m.mem), Some(session))))))
  }

  function RunConnected(cfg: Config, m: Machine, session: string): Machine {
    if m.run.None? || m.run.value.stage != RunConnecting || m.active.None? then m
    else
      var r := m.run.value;
      var turn := StepTurn(m.active.value.turn, Ready);
      var ready := if m.active.value.turn.Starting? then SetHarness(cfg, m, session) else m;
      var bound := ready.(active := Some(Active(turn, r.id, r.attempt, m.active.value.summary)));
      if turn.TurnIdle? then
        Save(bound.(mem := bound.mem.(submissions := UpdateRun(bound, Failer()), phase := PhaseIdle),
                    run := None))
      else
        bound.(run := Some(r.(stage := RunPrompting)),
               sent := m.sent + [Dispatch(r.attempt.GetOr(r.id), r.text, HarnessId(cfg, m.mem))])
  }

  /** What the end of a turn does to its submission. */
  function Finisher(outcome: Outcome): Submission -> Submission {
    (q: Submission) => q.(cancelled := q.cancelled || outcome.OutcomeCancelled?,
                          status := StepSubmission(q.status, if outcome.OutcomeCompleted? then AgentTurn.Complete else AgentTurn.Fail, true))
  }

  /** Which messages of a turn belong to this attempt of it. */
  function Counter(attempt: Option<Id>): MessageId -> bool {
    (id: MessageId) => attempt.None? || (id.OfAttempt? && id.attempt == attempt.value)
  }

  function RunFinished(m: Machine, outcome: Outcome): Machine {
    if m.run.None? || m.run.value.stage != RunPrompting || m.active.None? then m
    else
      var r := m.run.value;
      var messages := if outcome.OutcomeCompleted?
                      then FinalizeOwner(m.mem.messages, r.id, Counter(r.attempt))
                      else m.mem.messages;
      Save(m.(mem := m.mem.(messages := messages, phase := PhaseIdle,
                            submissions := UpdateRun(m, Finisher(outcome))),
              active := Some(m.active.value.(turn := StepTurn(m.active.value.turn, Finished))),
              run := None))
  }

  /** The `catch` of a run, up to its `await`: nothing is saved yet. */
  function RunFailed(m: Machine): Machine {
    if m.run.None? then m
    else m.(mem := m.mem.(submissions := UpdateRun(m, Failer()), phase := PhaseFailed),
            active := None, retiring := true, run := None)
  }

  // ---- user and harness events ----

  function FirstRunning(subs: seq<Submission>): (n: nat)
    ensures n <= |subs|
    ensures n < |subs| ==> subs[n].status == Running
    ensures forall i :: 0 <= i < n ==> subs[i].status != Running
  {
    FirstWhere(subs, (q: Submission) => q.status == Running)
  }

  function Cancelling(m: Machine): Machine {
    if m.active.None? || !Busy(m.mem) then m
    else
      var n := FirstRunning(m.mem.submissions);
      Save(m.(active := Some(m.active.value.(turn := StepTurn(m.active.value.turn, Stop))),
              mem := m.mem.(phase := PhaseRunning,
                            submissions := if n < |m.mem.submissions|
                                           then m.mem.submissions[n := m.mem.submissions[n].(cancelled := true)]
                                           else m.mem.submissions)))
  }

  function Asking(m: Machine, request: string): Machine {
    if m.active.None? || m.active.value.turn.Starting? || AgentTurn.Cancelled(m.active.value.turn) then m
    else Save(m.(mem := m.mem.(phase := PhasePermission(request))))
  }

  function Answering(m: Machine, request: string): Machine {
    if m.active.None? || m.mem.phase != PhasePermission(request) then m
    else Save(m.(mem := m.mem.(phase := PhaseRunning)))
  }

  function TextUpdate(a: Active, name: Option<string>, text: string, replace: bool): Update<MessageId> {
    Update(if a.attempt.Some? then OfAttempt(a.attempt.value, name.GetOr("answer"))
           else if name.Some? then OfName(name.value)
           else OfTurn(a.turnId),
           a.turnId, text, replace)
  }

  function Receiving(m: Machine, name: Option<string>, text: string, replace: bool): Machine {
    if m.active.None? || m.active.value.summary || m.active.value.turn.Starting? then m
    else Save(m.(mem := m.mem.(messages := ApplyUpdate(m.mem.messages, TextUpdate(m.active.value, name, text, replace)))))
  }

  const COMMENT_LIMIT := 128

  function Commenting(m: Machine, id: Id, body: string, quote: string): Machine {
    var n := IndexOfComment(m.mem.comments, id);
    var c := Comment(id, body, quote, false);
    if HasComment(m.mem.submissions, id) then m
    else if n < |m.mem.comments| then
      if m.mem.comments[n].sent then m
      else Save(m.(mem := m.mem.(comments := m.mem.comments[n := c])))
    else if |m.mem.comments| >= COMMENT_LIMIT then m
    else Save(m.(mem := m.mem.(comments := m.mem.comments + [c])))
  }

  // ---- switching harness ----

  predicate CanSwitch(cfg: Config, target: string) {
    target in cfg.adapters && target in cfg.durable
  }

  function Switched(cfg: Config, m: Machine, target: string): Machine {
    if !CanSwitch(cfg, target) then m
    else if m.mem.handoff.Some? && (!m.mem.handoff.value.stage.HandoffQueued? || m.mem.phase.PhaseRunning?) then
      Save(m.(mem := m.mem.(handoff := Some(m.mem.handoff.value.(requested := Some(target))))))
    else if !Available(cfg, m.mem) then m
    else if HarnessId(cfg, m.mem) == target then
      Save(m.(mem := m.mem.(handoff := None)))
    else
      Save(m.(mem := m.mem.(handoff := Some(Handoff(target, None, Uuid(m.next), m.mem.harness, HandoffQueued, None))),
              next := m.next + 1))
  }

  /** The requests that arrived since the intent was formed. */
  function LatestRequest(m: Machine): Option<string> {
    if m.mem.handoff.Some? then m.mem.handoff.value.requested else None
  }

  function Retire(m: Machine): Machine {
    m.(active := None, retiring := true)
  }

  /** The target is connected: hand over the continuation, and queue the next handoff if one was asked for. */
  function Arrived(m: Machine, v: Move, text: string): Machine
    requires m.active.Some?
  {
    var requested := LatestRequest(m);
    var again := requested.Some? && requested.value != v.intent.target;
    Save(m.(mem := m.mem.(continuation := if text == "" then None else Some(text),
                          handoff := if again then Some(Handoff(requested.value, None, Uuid(m.next), m.mem.harness, HandoffQueued, None))
                                     else None,
                          phase := PhaseIdle),
            next := m.next + 1,
            active := Some(m.active.value.(turn := StepTurn(m.active.value.turn, Finished))),
            move := None))
  }

  function Moved(cfg: Config, m: Machine, step: MoveStep): Machine {
    if m.move.None? then m
    else
      var v := m.move.value;
      match (step, v.stage)
      case (ConnectSource(session), NeedsSummary) =>
        if m.active.None? then m
        else
          var ready := if m.active.value.turn.Starting? then SetHarness(cfg, m, session) else m;
          ready.(active := Some(m.active.value.(turn := StepTurn(m.active.value.turn, Ready))),
                 move := Some(v.(stage := SourceReady)))
      case (AskSummary(rendered), SourceReady) =>
        if m.active.None? then m
        else
          var prompt := v.intent.prompt.GetOr(rendered);
          var h := v.intent.(requested := LatestRequest(m), stage := HandoffSummarizing, prompt := Some(prompt));
          Save(m.(mem := m.mem.(handoff := Some(h)),
                  active := Some(m.active.value.(turnId := h.operation, attempt := None, summary := true)),
                  move := Some(v.(stage := Summarizing)),
                  sent := m.sent + [Dispatch(h.operation, prompt, HarnessId(cfg, m.mem))]))
      case (TakeSummary(text), Summarizing) =>
        if Trim(text) == "" then m else m.(move := Some(v.(stage := HasText(Trim(text)))))
      case (Prepare, HasText(text)) =>
        var session := if m.mem.harness.Some? then m.mem.harness.value.session else None;
        var h := v.intent.(requested := LatestRequest(m), stage := HandoffPrepared(text));
        Retire(Save(m.(mem := m.mem.(handoff := Some(h)), move := Some(v.(stage := Retiring(text, session))))))
      case (Retarget, Retiring(text, session)) =>
        if m.retiring then m
        else m.(mem := m.mem.(harness := Some(Harness(v.intent.target, session))),
                active := Connect(m.active, v.intent.operation),
                move := Some(v.(stage := Retargeted(text))))
      case (ConnectTarget(session), Retargeted(text)) =>
        if m.active.None? then m
        else
          SetHarness(cfg, m.(active := Some(m.active.value.(turn := StepTurn(m.active.value.turn, Ready))),
                             move := Some(v.(stage := TargetReady(text)))), session)
      case (Complete, TargetReady(text)) =>
        if m.active.None? then m else Arrived(m, v, text)
      case (Restore, Failing) =>
        if m.retiring then m
        else Save(m.(mem := m.mem.(harness := v.original, handoff := None, phase := PhaseFailed), move := None))
      case (FailMove, _) =>
        if v.stage.Failing? || v.stage.Retiring? then m
        else Retire(m.(move := Some(v.(stage := Failing))))
      case _ => m
  }

  // ---- all steps ----

  function Step(cfg: Config, m: Machine, e: Event): Machine {
    match e
    case AcceptPrompt(p, review, saved) => Prompted(cfg, m, p, review, saved).0
    case Drain(rendered, saved) => Drained(cfg, m, rendered, saved)
    case Connected(session) => RunConnected(cfg, m, session)
    case Finish(outcome) => RunFinished(m, outcome)
    case RunFail => RunFailed(m)
    case Retired => m.(retiring := false)
    case Flush => Save(m)
    case Cancel => Cancelling(m)
    case AskPermission(request) => Asking(m, request)
    case AnswerPermission(request) => Answering(m, request)
    case TextEvent(name, text, replace) => Receiving(m, name, text, replace)
    case SaveComment(id, body, quote) => Commenting(m, id, body, quote)
    case SwitchHarness(target) => Switched(cfg, m, target)
    case MoveOn(step) => Moved(cfg, m, step)
    case Crash => CrashAndReload(cfg, m)
  }

  function Steps(cfg: Config, m: Machine, es: seq<Event>): Machine
    decreases es
  {
    if es == [] then m else Steps(cfg, Step(cfg, m, es[0]), es[1..])
  }
}
