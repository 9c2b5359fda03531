/**
 * What every step makes of every submission (packages/daemon/src/thread-agent.ts): its status and its
 * cancellation, the phase the Thread is in, and, at the end of a turn, its messages and its receipts.
 */
module AgentOutcomes {
  import opened Common
  import opened AgentTurn
  import opened Transcript
  import opened Receipts
  import opened AgentQueue
  import opened AgentAcceptance
  import opened AgentMachine
  import opened AgentSafety
  import opened AgentGuards
  import opened AgentTheorems
  import AgentHistory

  // ---- the guards ----

  /** The harness answers the turn in flight. */
  predicate EndsTurn(m: Machine, e: Event) {
    e.Finish? && m.run.Some? && m.run.value.stage == RunPrompting && m.active.Some?
  }

  /** The harness connects after the turn was cancelled. */
  predicate ConnectsTooLate(m: Machine, e: Event) {
    && e.Connected? && m.run.Some? && m.run.value.stage == RunConnecting && m.active.Some?
    && m.active.value.turn in {TurnIdle, Starting(true)}
  }

  predicate IsRun(m: Machine, i: nat) {
    m.run.Some? && i < |m.mem.submissions| && m.mem.submissions[i].id == m.run.value.id
  }

  /** A drain that can start something or begin a handoff. */
  predicate StartsQueued(m: Machine, e: Event) {
    e.Drain? && e.saved && AtRest(m) && m.mem.handoff.None?
  }

  /** The oldest queued submission. */
  predicate IsNext(m: Machine, i: nat) {
    && i < |m.mem.submissions| && m.mem.submissions[i].status == Queued
    && forall k :: 0 <= k < i ==> m.mem.submissions[k].status != Queued
  }

  /** An accepted retry of this submission. */
  ghost predicate Retries(cfg: Config, m: Machine, e: Event, i: nat) {
    && e.AcceptPrompt? && e.saved && IsRetry(e.prompt)
    && Admitted(cfg, m, e.prompt, e.review) && Acceptable(m.mem, e.prompt, e.review)
    && i < |m.mem.submissions| && m.mem.submissions[i].id == e.prompt.retry.value
  }

  predicate CancelsTurn(m: Machine, e: Event) {
    e.Cancel? && m.active.Some? && Busy(m.mem)
  }

  // ---- statuses ----

  /** The status of an earlier submission after a step. */
  ghost function StatusAfter(cfg: Config, m: Machine, e: Event, i: nat): Status
    requires i < |m.mem.submissions| && |m.disk.submissions| == |m.mem.submissions|
  {
    if e.Crash? then
      var saved := m.disk.submissions[i].status;
      if saved == Queued || saved == Running then (if Revives(cfg, m.disk) then Queued else Failed) else saved
    else if EndsTurn(m, e) && IsRun(m, i) then (if e.outcome == OutcomeCompleted then Completed else Failed)
    else if (ConnectsTooLate(m, e) || e.RunFail?) && IsRun(m, i) then Failed
    else if StartsQueued(m, e) && IsNext(m, i) then Running
    else if Retries(cfg, m, e, i) then Queued
    else m.mem.submissions[i].status
  }

  /** Whether it counts as cancelled afterwards. */
  ghost function CancelledAfter(cfg: Config, m: Machine, e: Event, i: nat): bool
    requires i < |m.mem.submissions| && |m.disk.submissions| == |m.mem.submissions|
  {
    if e.Crash? then m.disk.submissions[i].cancelled
    else if EndsTurn(m, e) && IsRun(m, i) then m.mem.submissions[i].cancelled || e.outcome == OutcomeCancelled
    else if CancelsTurn(m, e) && IsRun(m, i) then true
    else if Retries(cfg, m, e, i) then false
    else m.mem.submissions[i].cancelled
  }

  ghost predicate Became(cfg: Config, m: Machine, e: Event, i: nat, after: Submission) {
    && i < |m.mem.submissions| == |m.disk.submissions|
    && after.status == StatusAfter(cfg, m, e, i) && after.cancelled == CancelledAfter(cfg, m, e, i)
  }

  ghost predicate Becomes(cfg: Config, m: Machine, e: Event, t: Machine) {
    && |m.disk.submissions| == |m.mem.submissions| <= |t.mem.submissions|
    && (forall i :: 0 <= i < |m.mem.submissions| ==> Became(cfg, m, e, i, t.mem.submissions[i]))
    && (forall i :: |m.mem.submissions| <= i < |t.mem.submissions| ==>
          t.mem.submissions[i].status == Queued && !t.mem.submissions[i].cancelled)
  }

  lemma SameLength(m: Machine)
    requires Sane(m)
    ensures |m.disk.submissions| == |m.mem.submissions|
  {
  }

  /** The run in flight has one submission. */
  lemma OnlyRun(m: Machine, i: nat)
    requires Sane(m) && OneRunning(m) && m.run.Some?
    ensures m.run.value.linked && IndexOfSubmission(m.mem.submissions, m.run.value.id) < |m.mem.submissions|
    ensures IsRun(m, i) <==> i == IndexOfSubmission(m.mem.submissions, m.run.value.id)
    ensures IsRun(m, i) ==> m.mem.submissions[i].status == Running
  {
    RunIsRunning(m);
    RunEndsAlone(m);
  }

  lemma UpdatedRun(m: Machine, f: Submission -> Submission)
    requires Sane(m) && OneRunning(m) && m.run.Some?
    ensures |UpdateRun(m, f)| == |m.mem.submissions|
    ensures forall i :: 0 <= i < |m.mem.submissions| ==>
      UpdateRun(m, f)[i] == if IsRun(m, i) then f(m.mem.submissions[i]) else m.mem.submissions[i]
    ensures forall i :: 0 <= i < |m.mem.submissions| && IsRun(m, i) ==> m.mem.submissions[i].status == Running
  {
    forall i | 0 <= i < |m.mem.submissions|
      ensures UpdateRun(m, f)[i] == if IsRun(m, i) then f(m.mem.submissions[i]) else m.mem.submissions[i]
      ensures IsRun(m, i) ==> m.mem.submissions[i].status == Running
    {
      OnlyRun(m, i);
    }
  }

  lemma EndedSubmissions(m: Machine, outcome: Outcome)
    ensures RunFinished(m, outcome).mem.submissions ==
      if EndsTurn(m, Finish(outcome)) then UpdateRun(m, Finisher(outcome)) else m.mem.submissions
  {
    hide SettleReceipt, FinalizeOwner, UpdateSubmission;
  }

  lemma EndedStatuses(cfg: Config, m: Machine, outcome: Outcome)
    requires Sane(m) && OneRunning(m)
    ensures Becomes(cfg, m, Finish(outcome), RunFinished(m, outcome))
  {
    SameLength(m);
    if m.run.Some? { UpdatedRun(m, Finisher(outcome)); }
    EndedSubmissions(m, outcome);
    hide Sane, OneRunning, RunFinished, UpdateRun, Became, EndsTurn, IsRun;
    var t := RunFinished(m, outcome);
    forall i | 0 <= i < |m.mem.submissions| ensures Became(cfg, m, Finish(outcome), i, t.mem.submissions[i]) {
      FinishedOne(cfg, m, outcome, i);
    }
  }

  lemma FinishedOne(cfg: Config, m: Machine, outcome: Outcome, i: nat)
    requires i < |m.mem.submissions| == |m.disk.submissions|
    requires IsRun(m, i) ==> m.mem.submissions[i].status == Running
    ensures var e, q := Finish(outcome), m.mem.submissions[i];
      Became(cfg, m, e, i, if EndsTurn(m, e) && IsRun(m, i) then Finisher(outcome)(q) else q)
  {
  }

  lemma FailedStatuses(cfg: Config, m: Machine)
    requires Sane(m) && OneRunning(m)
    ensures Becomes(cfg, m, RunFail, RunFailed(m))
  {
    SameLength(m);
    if m.run.Some? { UpdatedRun(m, Failer()); }
    FailedSubmissions(m);
    hide Sane, OneRunning, RunFailed, UpdateRun, Became, IsRun;
    forall i | 0 <= i < |m.mem.submissions| ensures Became(cfg, m, RunFail, i, RunFailed(m).mem.submissions[i]) {
      FailedOne(cfg, m, i);
    }
  }

  lemma FailedOne(cfg: Config, m: Machine, i: nat)
    requires i < |m.mem.submissions| == |m.disk.submissions|
    ensures var q := m.mem.submissions[i];
      Became(cfg, m, RunFail, i, if m.run.Some? && IsRun(m, i) then Failer()(q) else q)
  {
  }

  lemma ConnectedStatuses(cfg: Config, m: Machine, session: string)
    requires Sane(m) && OneRunning(m)
    ensures Becomes(cfg, m, Connected(session), RunConnected(cfg, m, session))
  {
    SameLength(m);
    if m.run.Some? { UpdatedRun(m, Failer()); }
    ConnectedSubmissionsAre(cfg, m, session);
    hide Sane, OneRunning, RunConnected, UpdateRun, Became, IsRun, ConnectsTooLate;
    assert ConnectsTooLate(m, Connected(session)) ==> m.run.Some? by { TooLateRuns(m, session); }
    forall i | 0 <= i < |m.mem.submissions|
      ensures Became(cfg, m, Connected(session), i, RunConnected(cfg, m, session).mem.submissions[i])
    {
      ConnectedOne(cfg, m, session, i);
    }
  }

  lemma TooLateRuns(m: Machine, session: string)
    ensures ConnectsTooLate(m, Connected(session)) ==> m.run.Some?
  {
  }

  lemma ConnectedOne(cfg: Config, m: Machine, session: string, i: nat)
    requires i < |m.mem.submissions| == |m.disk.submissions|
    ensures var e, q := Connected(session), m.mem.submissions[i];
      Became(cfg, m, e, i, if ConnectsTooLate(m, e) && IsRun(m, i) then Failer()(q) else q)
  {
  }

  lemma FailedSubmissions(m: Machine)
    ensures RunFailed(m).mem.submissions == if m.run.Some? then UpdateRun(m, Failer()) else m.mem.submissions
  {
  }

  lemma ConnectedSubmissionsAre(cfg: Config, m: Machine, session: string)
    ensures RunConnected(cfg, m, session).mem.submissions ==
      if ConnectsTooLate(m, Connected(session)) then UpdateRun(m, Failer()) else m.mem.submissions
  {
    hide SettleReceipt, UpdateSubmission;
  }

  lemma CancelledStatuses(cfg: Config, m: Machine)
    requires Sane(m) && OneRunning(m)
    ensures Becomes(cfg, m, Cancel, Cancelling(m))
  {
    SameLength(m);
    var n := FirstRunning(m.mem.submissions);
    if m.run.Some? {
      RunIsRunning(m);
      RunEndsAlone(m);
      forall i | 0 <= i < |m.mem.submissions| ensures IsRun(m, i) <==> i == n { OnlyRun(m, i); }
    }
    assert m.run.None? ==> n == |m.mem.submissions|;
    CancelledSubmissions(m);
    hide Sane, OneRunning, Cancelling, Became, IsRun;
    forall i | 0 <= i < |m.mem.submissions| ensures Became(cfg, m, Cancel, i, Cancelling(m).mem.submissions[i]) {
      CancelledOne(cfg, m, i);
    }
  }

  lemma CancelledSubmissions(m: Machine)
    ensures var n, subs := FirstRunning(m.mem.submissions), m.mem.submissions;
      Cancelling(m).mem.submissions ==
        if CancelsTurn(m, Cancel) && n < |subs| then subs[n := subs[n].(cancelled := true)] else subs
  {
    hide SettleReceipt;
  }

  lemma CancelledOne(cfg: Config, m: Machine, i: nat)
    requires i < |m.mem.submissions| == |m.disk.submissions|
    ensures var q := m.mem.submissions[i];
      Became(cfg, m, Cancel, i, if CancelsTurn(m, Cancel) && IsRun(m, i) then q.(cancelled := true) else q)
  {
  }

  lemma DrainedStatuses(cfg: Config, m: Machine, rendered: string, saved: bool)
    requires Sane(m)
    ensures Becomes(cfg, m, Drain(rendered, saved), Drained(cfg, m, rendered, saved))
  {
    SameLength(m);
    hide Sane, SettleReceipt, StartText, Connect;
    var n := FirstQueued(m.mem.submissions);
    forall i | 0 <= i < |m.mem.submissions| ensures IsNext(m, i) <==> i == n {
      if i < n { assert m.mem.submissions[i].status != Queued; }
    }
    DrainedSubmissions(cfg, m, rendered, saved);
    var e, t := Drain(rendered, saved), Drained(cfg, m, rendered, saved);
    hide Drained, IsNext, StartsQueued, Became;
    forall i | 0 <= i < |m.mem.submissions| ensures Became(cfg, m, e, i, t.mem.submissions[i]) {
      DrainedOne(cfg, m, rendered, saved, i, t.mem.submissions[i]);
    }
  }

  lemma DrainedOne(cfg: Config, m: Machine, rendered: string, saved: bool, i: nat, after: Submission)
    requires i < |m.mem.submissions| == |m.disk.submissions|
    requires after.status == if StartsQueued(m, Drain(rendered, saved)) && IsNext(m, i) then Running else m.mem.submissions[i].status
    requires after.cancelled == m.mem.submissions[i].cancelled
    ensures Became(cfg, m, Drain(rendered, saved), i, after)
  {
  }

  lemma DrainedSubmissions(cfg: Config, m: Machine, rendered: string, saved: bool)
    ensures var n, subs, after := FirstQueued(m.mem.submissions), m.mem.submissions, Drained(cfg, m, rendered, saved).mem.submissions;
      && |after| == |subs|
      && forall i :: 0 <= i < |subs| ==>
           && after[i].status == (if StartsQueued(m, Drain(rendered, saved)) && i == n then Running else subs[i].status)
           && after[i].cancelled == subs[i].cancelled
  {
    hide SettleReceipt, StartText, Connect;
  }

  lemma PromptedStatuses(cfg: Config, m: Machine, p: PromptRequest, review: Review, saved: bool)
    requires Sane(m)
    ensures Becomes(cfg, m, AcceptPrompt(p, review, saved), Prompted(cfg, m, p, review, saved).0)
  {
    SameLength(m);
    AnswersExactly(cfg, m, p, review, saved);
    var e := AcceptPrompt(p, review, saved);
    var (t, o) := Prompted(cfg, m, p, review, saved);
    hide Accept, FindReceipt, Acceptable, Admitted;
    if o.Accepted? {
      if IsRetry(p) {
        RetriedStatuses(cfg, m, p, review);
      } else {
        var added := AcceptShape(m.mem, p, review, m.next, cfg.fallback);
        assert t.mem.submissions == m.mem.submissions + added;
        hide Prompted;
        assert forall i :: 0 <= i < |added| ==> IsNew(added[i]);
        AppendedStatuses(cfg, m, e, t, added);
      }
    } else {
      assert t.mem == m.mem;
      hide Prompted;
      assert m.mem.submissions + [] == m.mem.submissions;
      AppendedStatuses(cfg, m, e, t, []);
    }
  }

  lemma AppendedStatuses(cfg: Config, m: Machine, e: Event, t: Machine, added: seq<Submission>)
    requires |m.disk.submissions| == |m.mem.submissions| && e.AcceptPrompt? && t.mem.submissions == m.mem.submissions + added
    requires forall i :: 0 <= i < |added| ==> IsNew(added[i])
    requires forall i :: 0 <= i < |m.mem.submissions| ==> !Retries(cfg, m, e, i)
    ensures Becomes(cfg, m, e, t)
  {
    hide Became, Retries;
    forall i | 0 <= i < |m.mem.submissions| ensures Became(cfg, m, e, i, t.mem.submissions[i]) {
      PromptedOne(cfg, m, e, i, t.mem.submissions[i]);
    }
  }

  lemma PromptedOne(cfg: Config, m: Machine, e: Event, i: nat, after: Submission)
    requires i < |m.mem.submissions| == |m.disk.submissions| && e.AcceptPrompt?
    requires after.status == if Retries(cfg, m, e, i) then Queued else m.mem.submissions[i].status
    requires after.cancelled == if Retries(cfg, m, e, i) then false else m.mem.submissions[i].cancelled
    ensures Became(cfg, m, e, i, after)
  {
    hide Retries;
  }

  lemma RetriedStatuses(cfg: Config, m: Machine, p: PromptRequest, review: Review)
    requires Sane(m) && IsRetry(p) && Admitted(cfg, m, p, review) && Acceptable(m.mem, p, review)
    requires Prompted(cfg, m, p, review, true).1.Accepted?
    ensures Becomes(cfg, m, AcceptPrompt(p, review, true), Prompted(cfg, m, p, review, true).0)
  {
    SameLength(m);
    hide Accept, FindReceipt, Acceptable, Admitted;
    var e := AcceptPrompt(p, review, true);
    var t := Prompted(cfg, m, p, review, true).0;
    RetryShape(m.mem, p, review, m.next, cfg.fallback);
    var n := IndexOfSubmission(m.mem.submissions, p.retry.value);
    assert t.mem.submissions == m.mem.submissions[n := m.mem.submissions[n].(cancelled := false, attempt := Some(Uuid(m.next)), status := Queued)];
    hide Prompted;
    forall i | 0 <= i < |m.mem.submissions| ensures Retries(cfg, m, e, i) <==> i == n { SameIdOnce(m, i, n); }
    hide Sane, Retries, Became;
    forall i | 0 <= i < |m.mem.submissions| ensures Became(cfg, m, e, i, t.mem.submissions[i]) {
      PromptedOne(cfg, m, e, i, t.mem.submissions[i]);
    }
  }

  lemma SameIdOnce(m: Machine, i: nat, n: nat)
    requires Sane(m) && i < |m.mem.submissions| && n < |m.mem.submissions|
    ensures m.mem.submissions[i].id == m.mem.submissions[n].id <==> i == n
  {
  }

  lemma CrashedStatuses(cfg: Config, m: Machine)
    requires Sane(m)
    ensures Becomes(cfg, m, Crash, CrashAndReload(cfg, m))
  {
    RestartRequeuesOrFails(cfg, m);
    assert Recoverable(cfg, m.disk) == Revives(cfg, m.disk);
    hide Sane, Recoverable, Revives, SettleReceipt;
    var t := CrashAndReload(cfg, m);
    assert |t.mem.submissions| == |m.disk.submissions|;
  }

  lemma QuietStatuses(cfg: Config, m: Machine, e: Event)
    requires Sane(m) && !e.AcceptPrompt? && !e.Drain? && !e.Connected? && !e.Finish? && !e.RunFail? && !e.Cancel? && !e.Crash?
    ensures Becomes(cfg, m, e, Step(cfg, m, e))
  {
    SameLength(m);
    SameSubmissions(cfg, m, e);
    hide Sane, Step, Became;
    forall i | 0 <= i < |m.mem.submissions| ensures Became(cfg, m, e, i, m.mem.submissions[i]) {
      QuietOne(cfg, m, e, i);
    }
  }

  lemma QuietOne(cfg: Config, m: Machine, e: Event, i: nat)
    requires i < |m.mem.submissions| == |m.disk.submissions|
    requires !e.AcceptPrompt? && !e.Drain? && !e.Connected? && !e.Finish? && !e.RunFail? && !e.Cancel? && !e.Crash?
    ensures Became(cfg, m, e, i, m.mem.submissions[i])
  {
  }

  lemma SameSubmissions(cfg: Config, m: Machine, e: Event)
    requires !e.AcceptPrompt? && !e.Drain? && !e.Connected? && !e.Finish? && !e.RunFail? && !e.Cancel? && !e.Crash?
    ensures Step(cfg, m, e).mem.submissions == m.mem.submissions
  {
    hide Moved, Switched, Commenting, Receiving, Asking, Answering, SettleReceipt;
    match e
    case MoveOn(step) => MovesLeaveTheQueue(cfg, m, step);
    case SaveComment(id, body, quote) => QuietSteps(cfg, m, id, body, quote, "");
    case SwitchHarness(target) => QuietSteps(cfg, m, Uuid(0), "", "", target);
    case AskPermission(request) => TextLeavesTheQueue(m, request, None, "", false);
    case AnswerPermission(request) => TextLeavesTheQueue(m, request, None, "", false);
    case TextEvent(name, text, replace) => TextLeavesTheQueue(m, "", name, text, replace);
    case _ =>
  }

  lemma TextLeavesTheQueue(m: Machine, request: string, name: Option<string>, text: string, replace: bool)
    ensures Asking(m, request).mem.submissions == Answering(m, request).mem.submissions
         == Receiving(m, name, text, replace).mem.submissions == m.mem.submissions
  {
  }

  /** Every step, crash included: what becomes of each submission, old and new. A turn's submission completes
      exactly when its harness completed the turn. */
  lemma StatusesExactly(cfg: Config, m: Machine, e: Event)
    requires Sane(m) && OneRunning(m)
    ensures Becomes(cfg, m, e, Step(cfg, m, e))
  {
    hide Becomes, Sane, OneRunning, Prompted, Drained, RunConnected, RunFinished, RunFailed, Cancelling, CrashAndReload;
    match e
    case AcceptPrompt(p, review, saved) => PromptedStatuses(cfg, m, p, review, saved);
    case Drain(rendered, saved) => DrainedStatuses(cfg, m, rendered, saved);
    case Connected(session) => ConnectedStatuses(cfg, m, session);
    case Finish(outcome) => EndedStatuses(cfg, m, outcome);
    case RunFail => FailedStatuses(cfg, m);
    case Cancel => CancelledStatuses(cfg, m);
    case Crash => CrashedStatuses(cfg, m);
    case _ => QuietStatuses(cfg, m, e);
  }

  // ---- the phase ----

  ghost function PhaseAfter(cfg: Config, m: Machine, e: Event): Phase {
    if e.Crash? then
      if Busy(m.disk) || exists i :: 0 <= i < |m.disk.submissions| && m.disk.submissions[i].status in {Queued, Running}
      then (if Revives(cfg, m.disk) then PhaseIdle else PhaseFailed)
      else m.disk.phase
    else if EndsTurn(m, e) || ConnectsTooLate(m, e) then PhaseIdle
    else if e.RunFail? && m.run.Some? then PhaseFailed
    else if StartsQueued(m, e) && exists i :: IsNext(m, i) then PhaseRunning
    else if BeginsHandoff(cfg, m, e) then PhaseRunning
    else if CancelsTurn(m, e) then PhaseRunning
    else if e.AskPermission? && m.active.Some? && m.active.value.turn in {TurnIdle, TurnRunning} then PhasePermission(e.request)
    else if e.AnswerPermission? && m.active.Some? && m.mem.phase == PhasePermission(e.request) then PhaseRunning
    else if e == MoveOn(MoveStep.Complete) && m.move.Some? && m.move.value.stage.TargetReady? && m.active.Some? then PhaseIdle
    else if e == MoveOn(Restore) && m.move.Some? && m.move.value.stage.Failing? && !m.retiring then PhaseFailed
    else m.mem.phase
  }

  /** A drain finds a handoff that does not ask for the harness the Thread already has. */
  predicate BeginsHandoff(cfg: Config, m: Machine, e: Event) {
    && e.Drain? && AtRest(m) && m.mem.handoff.Some?
    && var h := m.mem.handoff.value;
    !(h.stage.HandoffQueued? && h.requested == Some(HarnessOf(cfg, m.mem)))
  }

  lemma RunPhases(cfg: Config, m: Machine, outcome: Outcome)
    ensures RunFinished(m, outcome).mem.phase == PhaseAfter(cfg, m, Finish(outcome))
    ensures RunFailed(m).mem.phase == PhaseAfter(cfg, m, RunFail)
    ensures Cancelling(m).mem.phase == PhaseAfter(cfg, m, Cancel)
  {
    hide SettleReceipt, UpdateSubmission, FinalizeOwner;
  }

  lemma ConnectedPhase(cfg: Config, m: Machine, session: string)
    ensures RunConnected(cfg, m, session).mem.phase == PhaseAfter(cfg, m, Connected(session))
  {
    hide SettleReceipt, UpdateSubmission;
  }

  lemma DrainPhases(cfg: Config, m: Machine, rendered: string, saved: bool)
    ensures Drained(cfg, m, rendered, saved).mem.phase == PhaseAfter(cfg, m, Drain(rendered, saved))
  {
    hide SettleReceipt, StartText, Connect;
    var n := FirstQueued(m.mem.submissions);
    if n < |m.mem.submissions| { assert IsNext(m, n); }
  }

  lemma MovePhases(cfg: Config, m: Machine, step: MoveStep)
    ensures Moved(cfg, m, step).mem.phase == PhaseAfter(cfg, m, MoveOn(step))
  {
    hide SettleReceipt;
  }

  lemma OtherPhases(cfg: Config, m: Machine, e: Event)
    requires e.AskPermission? || e.AnswerPermission? || e.TextEvent? || e.SaveComment? || e.SwitchHarness? || e.Retired? || e.Flush? || e.Crash?
    ensures Step(cfg, m, e).mem.phase == PhaseAfter(cfg, m, e)
  {
    hide SettleReceipt, HasComment, ApplyUpdate;
  }

  lemma PromptPhases(cfg: Config, m: Machine, p: PromptRequest, review: Review, saved: bool)
    requires Sane(m)
    ensures Prompted(cfg, m, p, review, saved).0.mem.phase == m.mem.phase
  {
    hide Accept, FindReceipt;
    if Prompted(cfg, m, p, review, saved).1.Accepted? {
      if IsRetry(p) {
        RetryShape(m.mem, p, review, m.next, cfg.fallback);
      } else {
        var _ := AcceptShape(m.mem, p, review, m.next, cfg.fallback);
      }
    }
  }

  /** Every step, crash included: the phase the Thread is in afterwards. */
  lemma PhasesExactly(cfg: Config, m: Machine, e: Event)
    requires Sane(m)
    ensures Step(cfg, m, e).mem.phase == PhaseAfter(cfg, m, e)
  {
    hide PhaseAfter, Sane, Prompted, Drained, RunConnected, RunFinished, RunFailed, Cancelling, Moved;
    match e
    case AcceptPrompt(p, review, saved) => PromptPhases(cfg, m, p, review, saved); PromptKeepsPhase(cfg, m, e);
    case Drain(rendered, saved) => DrainPhases(cfg, m, rendered, saved);
    case Connected(session) => ConnectedPhase(cfg, m, session);
    case Finish(outcome) => RunPhases(cfg, m, outcome);
    case RunFail => RunPhases(cfg, m, OutcomeCompleted);
    case Cancel => RunPhases(cfg, m, OutcomeCompleted);
    case MoveOn(step) => MovePhases(cfg, m, step);
    case _ => OtherPhases(cfg, m, e);
  }

  lemma PromptKeepsPhase(cfg: Config, m: Machine, e: Event)
    requires e.AcceptPrompt?
    ensures PhaseAfter(cfg, m, e) == m.mem.phase
  {
  }

  // ---- the end of a turn ----

  /** A message of the turn in flight, and of its attempt if the turn is a retry. */
  predicate OfTheRun(r: Run, message: Message<MessageId>) {
    && !message.user && message.owner == r.id
    && (r.attempt.Some? ==> message.id.OfAttempt? && message.id.attempt == r.attempt.value)
  }

  /** A completed turn completes exactly its own messages; any other end completes none. Nothing else about any
      message changes, and all of it is on disk. */
  lemma EndedMessages(m: Machine, outcome: Outcome)
    requires EndsTurn(m, Finish(outcome))
    ensures var t := RunFinished(m, outcome);
      && t.run == None && t.disk == t.mem && |t.mem.messages| == |m.mem.messages|
      && forall j :: 0 <= j < |m.mem.messages| ==>
           var before := m.mem.messages[j];
           t.mem.messages[j] == before.(complete := before.complete || (outcome == OutcomeCompleted && OfTheRun(m.run.value, before)))
  {
    hide SettleReceipt, UpdateSubmission;
  }

  /** Some member of the batch besides this one. */
  predicate Other(subs: seq<Submission>, batch: seq<Id>, id: Id, p: Submission -> bool) {
    exists x :: x in batch && x != id && IndexOfSubmission(subs, x) < |subs| && p(subs[IndexOfSubmission(subs, x)])
  }

  predicate OtherMissing(subs: seq<Submission>, batch: seq<Id>, id: Id) {
    exists x :: x in batch && x != id && IndexOfSubmission(subs, x) == |subs|
  }

  predicate OthersOpen(subs: seq<Submission>, batch: seq<Id>, id: Id) {
    OtherMissing(subs, batch, id) || Other(subs, batch, id, (q: Submission) => q.status == Queued || q.status == Running)
  }

  /** What an undecided receipt that names the run's submission says once the turn has ended. */
  function ReceiptAfter(m: Machine, r: Receipt, outcome: Outcome, cancelled: bool): Option<Outcome>
    requires m.run.Some?
  {
    var subs, id := m.mem.submissions, m.run.value.id;
    if OthersOpen(subs, r.batch, id) then None
    else if cancelled || outcome == OutcomeCancelled || Other(subs, r.batch, id, (q: Submission) => q.cancelled) then Some(OutcomeCancelled)
    else if outcome == OutcomeFailed || Other(subs, r.batch, id, (q: Submission) => q.status == Failed) then Some(OutcomeFailed)
    else Some(OutcomeCompleted)
  }

  /** The end of a turn decides each undecided receipt that names its submission, as soon as no other member of
      the batch is open, and by the worst that became of any member; alone in its batch and not cancelled
      before, the submission's receipt says exactly how the turn ended. */
  lemma EndedReceipts(m: Machine, outcome: Outcome, i: nat)
    requires Sane(m) && OneRunning(m) && EndsTurn(m, Finish(outcome))
    requires i < |m.mem.receipts| && m.mem.receipts[i].outcome.None? && m.run.value.id in m.mem.receipts[i].batch
    ensures var n := IndexOfSubmission(m.mem.submissions, m.run.value.id);
      && n < |m.mem.submissions| && i < |RunFinished(m, outcome).mem.receipts|
      && RunFinished(m, outcome).mem.receipts[i].outcome ==
           ReceiptAfter(m, m.mem.receipts[i], outcome, m.mem.submissions[n].cancelled)
      && (m.mem.receipts[i].batch == [m.run.value.id] && !m.mem.submissions[n].cancelled ==>
            RunFinished(m, outcome).mem.receipts[i].outcome == Some(outcome))
  {
    var n := IndexOfSubmission(m.mem.submissions, m.run.value.id);
    var r := m.mem.receipts[i];
    var after := UpdateRun(m, Finisher(outcome));
    RunIsRunning(m);
    EndedReceiptIs(m, outcome, i);
    OneEndedByRun(m, outcome);
    hide Sane, OneRunning, RunFinished, UpdateRun, OneEnded, EndsTurn;
    SettledByTheRun(m.mem.submissions, after, r, n, outcome);
    AloneInBatch(m.mem.submissions, m.run.value.id);
    hide OthersOpen, Other;
  }

  lemma AloneInBatch(subs: seq<Submission>, id: Id)
    ensures !OthersOpen(subs, [id], id)
    ensures !Other(subs, [id], id, (q: Submission) => q.cancelled) && !Other(subs, [id], id, (q: Submission) => q.status == Failed)
  {
  }

  lemma OneEndedByRun(m: Machine, outcome: Outcome)
    requires Sane(m) && OneRunning(m) && m.run.Some?
    ensures OneEnded(m.mem.submissions, UpdateRun(m, Finisher(outcome)), IndexOfSubmission(m.mem.submissions, m.run.value.id), outcome)
  {
    var n := IndexOfSubmission(m.mem.submissions, m.run.value.id);
    var after := UpdateRun(m, Finisher(outcome));
    RunIsRunning(m);
    OnlyRun(m, n);
    UpdatedRun(m, Finisher(outcome));
    forall k | 0 <= k < |m.mem.submissions| && k != n ensures !IsRun(m, k) { OnlyRun(m, k); }
    hide Sane, OneRunning, UpdateRun, IsRun;
    forall k | 0 <= k < |after| ensures after[k].id == m.mem.submissions[k].id {}
    forall x ensures IndexOfSubmission(after, x) == IndexOfSubmission(m.mem.submissions, x) {
      SameIndex(m.mem.submissions, after, x);
    }
  }

  lemma EndedReceiptIs(m: Machine, outcome: Outcome, i: nat)
    requires EndsTurn(m, Finish(outcome)) && i < |m.mem.receipts|
    ensures i < |RunFinished(m, outcome).mem.receipts|
    ensures RunFinished(m, outcome).mem.receipts[i] == SettleReceipt(UpdateRun(m, Finisher(outcome)), m.mem.receipts[i])
  {
    hide SettleReceipt, UpdateSubmission, FinalizeOwner;
  }

  /** One member has ended, with this outcome, and every other is as it was. */
  ghost predicate OneEnded(subs: seq<Submission>, after: seq<Submission>, n: nat, outcome: Outcome) {
    && n < |subs| == |after|
    && (forall x :: IndexOfSubmission(after, x) == IndexOfSubmission(subs, x))
    && IndexOfSubmission(subs, subs[n].id) == n
    && after[n].status == (if outcome == OutcomeCompleted then Completed else Failed)
    && after[n].cancelled == (subs[n].cancelled || outcome == OutcomeCancelled)
    && forall k :: 0 <= k < |subs| && k != n ==> after[k] == subs[k]
  }

  lemma PendingByOthers(subs: seq<Submission>, after: seq<Submission>, batch: seq<Id>, n: nat, outcome: Outcome)
    requires OneEnded(subs, after, n, outcome) && subs[n].id in batch
    ensures Pending(after, batch) <==> OthersOpen(subs, batch, subs[n].id)
  {
    var id := subs[n].id;
    var open := (q: Submission) => q.status == Queued || q.status == Running;
    forall x ensures Unsettled(after, x) <==> x != id && Unsettled(subs, x) { SettledMember(subs, after, n, outcome, x); }
    hide OneEnded;
    if Pending(after, batch) {
      var x :| x in batch && Unsettled(after, x);
      if IndexOfSubmission(subs, x) < |subs| { assert Other(subs, batch, id, open); } else { assert OtherMissing(subs, batch, id); }
    }
    if OtherMissing(subs, batch, id) {
      var x :| x in batch && x != id && IndexOfSubmission(subs, x) == |subs|;
      assert Unsettled(after, x);
    } else if Other(subs, batch, id, open) {
      var x :| x in batch && x != id && IndexOfSubmission(subs, x) < |subs| && open(subs[IndexOfSubmission(subs, x)]);
      assert Unsettled(after, x);
    }
  }

  lemma SettledMember(subs: seq<Submission>, after: seq<Submission>, n: nat, outcome: Outcome, x: Id)
    requires OneEnded(subs, after, n, outcome)
    ensures Unsettled(after, x) <==> x != subs[n].id && Unsettled(subs, x)
  {
    var k := IndexOfSubmission(subs, x);
    if k < |subs| { assert subs[k].id == x; }
  }

  lemma MemberByOthers(subs: seq<Submission>, after: seq<Submission>, batch: seq<Id>, n: nat, outcome: Outcome, p: Submission -> bool)
    requires OneEnded(subs, after, n, outcome) && subs[n].id in batch
    ensures HasMember(after, batch, p) <==> p(after[n]) || Other(subs, batch, subs[n].id, p)
  {
    var id := subs[n].id;
    if HasMember(after, batch, p) {
      var x :| x in batch && IndexOfSubmission(after, x) < |after| && p(after[IndexOfSubmission(after, x)]);
      var k := IndexOfSubmission(subs, x);
      assert subs[k].id == x;
      if x != id { assert after[k] == subs[k]; }
    }
    if Other(subs, batch, id, p) {
      var x :| x in batch && x != id && IndexOfSubmission(subs, x) < |subs| && p(subs[IndexOfSubmission(subs, x)]);
      assert subs[IndexOfSubmission(subs, x)].id == x;
      assert IndexOfSubmission(after, x) < |after| && p(after[IndexOfSubmission(after, x)]);
    }
    if p(after[n]) { assert IndexOfSubmission(after, id) == n; }
  }

  lemma SettledByTheRun(subs: seq<Submission>, after: seq<Submission>, r: Receipt, n: nat, outcome: Outcome)
    requires OneEnded(subs, after, n, outcome) && r.outcome.None? && subs[n].id in r.batch
    ensures var id := subs[n].id;
      SettleReceipt(after, r).outcome ==
        if OthersOpen(subs, r.batch, id) then None
        else if subs[n].cancelled || outcome == OutcomeCancelled || Other(subs, r.batch, id, (q: Submission) => q.cancelled) then Some(OutcomeCancelled)
        else if outcome == OutcomeFailed || Other(subs, r.batch, id, (q: Submission) => q.status == Failed) then Some(OutcomeFailed)
        else Some(OutcomeCompleted)
  {
    hide Pending, HasMember, Other, OthersOpen;
    PendingByOthers(subs, after, r.batch, n, outcome);
    var cancelled, failed := (q: Submission) => q.cancelled, (q: Submission) => q.status == Failed;
    MemberByOthers(subs, after, r.batch, n, outcome, cancelled);
    MemberByOthers(subs, after, r.batch, n, outcome, failed);
    assert r.batch != [];
  }
}
