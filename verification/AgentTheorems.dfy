/**
 * Queue safety over whole runs: one running submission at a time (and exactly which call breaks that),
 * first queued first started, acceptance that no later step or crash undoes.
 */
module AgentTheorems {
  import opened Common
  import opened AgentTurn
  import opened Transcript
  import opened Receipts
  import opened AgentQueue
  import opened AgentAcceptance
  import opened AgentMachine
  import opened AgentSafety
  import opened AgentGuards

  lemma {:induction false} RunsAreSane(cfg: Config, m: Machine, es: seq<Event>)
    requires Sane(m)
    ensures Sane(Steps(cfg, m, es))
    decreases es
  {
    if es != [] {
      StepIsSane(cfg, m, es[0]);
      RunsAreSane(cfg, Step(cfg, m, es[0]), es[1..]);
    }
  }

  // ---- one running submission ----

  /** Whatever is marked running is what the suspended run will settle. */
  ghost predicate OneRunning(m: Machine) {
    forall i :: 0 <= i < |m.mem.submissions| && m.mem.submissions[i].status == Running ==>
      m.run.Some? && m.run.value.linked && m.mem.submissions[i].id == m.run.value.id
  }

  /** The one call that breaks it: while a run is in flight, a prompt that passes the cheap refusals but cannot
      be queued (its comment is unknown or queued already, its retry has not failed, it does not fit, or it has
      an operation and nothing to do), or whose save fails. */
  ghost predicate RollsBackInFlight(cfg: Config, m: Machine, e: Event) {
    && e.AcceptPrompt? && m.run.Some?
    && Admitted(cfg, m, e.prompt, e.review) && !(Acceptable(m.mem, e.prompt, e.review) && e.saved)
  }

  ghost predicate NeverRollsBackInFlight(cfg: Config, m: Machine, es: seq<Event>)
    decreases es
  {
    es == [] || (!RollsBackInFlight(cfg, m, es[0]) && NeverRollsBackInFlight(cfg, Step(cfg, m, es[0]), es[1..]))
  }

  /** At most one submission runs, and then the phase says so. */
  lemma OneRunningMeans(m: Machine)
    requires Sane(m) && OneRunning(m)
    ensures forall i, j :: 0 <= i < j < |m.mem.submissions| ==>
      !(m.mem.submissions[i].status == Running && m.mem.submissions[j].status == Running)
    ensures (exists i :: 0 <= i < |m.mem.submissions| && m.mem.submissions[i].status == Running) ==> Busy(m.mem)
  {
  }

  /** Nothing is running afterwards that was not running before. */
  ghost predicate NothingStarts(m: Machine, t: Machine) {
    forall i :: 0 <= i < |t.mem.submissions| && t.mem.submissions[i].status == Running ==>
      i < |m.mem.submissions| && m.mem.submissions[i].status == Running && m.mem.submissions[i].id == t.mem.submissions[i].id
  }

  lemma PromptStartsNothing(cfg: Config, m: Machine, p: PromptRequest, review: Review, saved: bool)
    requires Sane(m)
    ensures NothingStarts(m, Prompted(cfg, m, p, review, saved).0)
    ensures !RollsBackInFlight(cfg, m, AcceptPrompt(p, review, saved)) ==> Prompted(cfg, m, p, review, saved).0.run == m.run
  {
    hide Accept, Acceptable;
    AnswersExactly(cfg, m, p, review, saved);
    if FindReceipt(m.mem.receipts, p) == Ok(None) && Accept(m.mem, p, review, m.next, cfg.fallback).Ok? {
      var t := Accept(m.mem, p, review, m.next, cfg.fallback).value;
      if IsRetry(p) {
        RetryShape(m.mem, p, review, m.next, cfg.fallback);
      } else {
        var added := AcceptShape(m.mem, p, review, m.next, cfg.fallback);
        AppendingStartsNothing(m.mem.submissions, added);
      }
    }
  }

  lemma AppendingStartsNothing(subs: seq<Submission>, added: seq<Submission>)
    requires forall i :: 0 <= i < |added| ==> IsNew(added[i])
    ensures forall i :: 0 <= i < |subs + added| && (subs + added)[i].status == Running ==> i < |subs|
  {
  }

  lemma ConnectedSubmissions(cfg: Config, m: Machine, session: string)
    ensures RunConnected(cfg, m, session).mem.submissions == m.mem.submissions
      || (m.run.Some? && RunConnected(cfg, m, session).mem.submissions == UpdateRun(m, Failer()))
  {
  }

  lemma ConnectedStartsNothing(cfg: Config, m: Machine, session: string)
    ensures NothingStarts(m, RunConnected(cfg, m, session))
  {
    ConnectedSubmissions(cfg, m, session);
    hide RunConnected, UpdateRun;
    if m.run.Some? { UpdateStartsNothing(m, Failer()); }
  }

  lemma FinishStartsNothing(m: Machine, outcome: Outcome)
    requires Sane(m)
    ensures NothingStarts(m, RunFinished(m, outcome))
  {
    if m.run.Some? { UpdateStartsNothing(m, Finisher(outcome)); }
  }

  lemma FailStartsNothing(m: Machine)
    requires Sane(m)
    ensures NothingStarts(m, RunFailed(m))
  {
    if m.run.Some? { UpdateStartsNothing(m, Failer()); }
  }

  lemma UpdateStartsNothing(m: Machine, f: Submission -> Submission)
    requires m.run.Some?
    requires forall q :: f(q).id == q.id && (f(q).status == Running ==> q.status == Running)
    ensures |UpdateRun(m, f)| == |m.mem.submissions|
    ensures forall i :: 0 <= i < |m.mem.submissions| && UpdateRun(m, f)[i].status == Running ==>
      m.mem.submissions[i].status == Running
    ensures forall i :: 0 <= i < |m.mem.submissions| ==> UpdateRun(m, f)[i].id == m.mem.submissions[i].id
  {
  }

  lemma QuietSteps(cfg: Config, m: Machine, id: Id, body: string, quote: string, target: string)
    ensures Commenting(m, id, body, quote).mem.submissions == m.mem.submissions
    ensures Commenting(m, id, body, quote).run == m.run
    ensures Switched(cfg, m, target).mem.submissions == m.mem.submissions && Switched(cfg, m, target).run == m.run
    ensures Cancelling(m).run == m.run && NothingStarts(m, Cancelling(m))
  {
  }

  lemma MovesLeaveTheQueue(cfg: Config, m: Machine, step: MoveStep)
    ensures Moved(cfg, m, step).mem.submissions == m.mem.submissions && Moved(cfg, m, step).run == m.run
  {
  }

  lemma AllButDrainStartNothing(cfg: Config, m: Machine, e: Event)
    requires Sane(m) && !e.Drain?
    ensures NothingStarts(m, Step(cfg, m, e))
  {
    match e
    case AcceptPrompt(p, review, saved) => PromptStartsNothing(cfg, m, p, review, saved);
    case Connected(session) => ConnectedStartsNothing(cfg, m, session);
    case Finish(outcome) => FinishStartsNothing(m, outcome);
    case RunFail => FailStartsNothing(m);
    case Cancel => QuietSteps(cfg, m, Uuid(0), "", "", "");
    case Retired =>
    case Flush =>
    case AskPermission(_) =>
    case AnswerPermission(_) =>
    case TextEvent(_, _, _) =>
    case SaveComment(id, body, quote) => QuietSteps(cfg, m, id, body, quote, "");
    case SwitchHarness(target) => QuietSteps(cfg, m, Uuid(0), "", "", target);
    case MoveOn(step) => MovesLeaveTheQueue(cfg, m, step);
    case Crash => CrashIsSane(cfg, m);
  }

  /** Only a drain starts a submission, and never with a handoff pending, a turn in progress or a
      connection closing; it takes the first queued one. */
  lemma {:induction false} OnlyDrainStarts(cfg: Config, m: Machine, e: Event, i: nat)
    requires Sane(m)
    requires i < |Step(cfg, m, e).mem.submissions| && Step(cfg, m, e).mem.submissions[i].status == Running
    requires i < |m.mem.submissions| ==> m.mem.submissions[i].status != Running
    ensures e.Drain? && e.saved && AtRest(m) && m.mem.handoff.None?
    ensures i == FirstQueued(m.mem.submissions) < |m.mem.submissions|
    ensures forall k :: 0 <= k < i ==> m.mem.submissions[k].status != Queued
  {
    if e.Drain? {
      DrainStarts(cfg, m, e.rendered, e.saved, i);
    } else {
      AllButDrainStartNothing(cfg, m, e);
    }
  }

  lemma DrainStarts(cfg: Config, m: Machine, rendered: string, saved: bool, i: nat)
    requires i < |Drained(cfg, m, rendered, saved).mem.submissions|
    requires Drained(cfg, m, rendered, saved).mem.submissions[i].status == Running
    requires i < |m.mem.submissions| ==> m.mem.submissions[i].status != Running
    ensures saved && CanDrain(m) && m.mem.handoff.None? && i == FirstQueued(m.mem.submissions) < |m.mem.submissions|
  {
  }

  /** Exactly the in-flight rollback loses the single running submission. */
  lemma OneRunningExactly(cfg: Config, m: Machine, e: Event)
    requires Sane(m) && OneRunning(m)
    ensures OneRunning(Step(cfg, m, e)) <==> !RollsBackInFlight(cfg, m, e)
  {
    if RollsBackInFlight(cfg, m, e) {
      var n := IndexOfSubmission(m.mem.submissions, m.run.value.id);
      var t := Step(cfg, m, e);
      RolledBack(cfg, m, e);
      hide Step, RollsBackInFlight;
      assert t.mem.submissions[n].status == Running && !t.run.value.linked;
    } else {
      OneRunningKept(cfg, m, e);
    }
  }

  lemma OneRunningKept(cfg: Config, m: Machine, e: Event)
    requires Sane(m) && OneRunning(m) && !RollsBackInFlight(cfg, m, e)
    ensures OneRunning(Step(cfg, m, e))
  {
    match e
    case AcceptPrompt(p, review, saved) => PromptStartsNothing(cfg, m, p, review, saved);
    case Drain(rendered, saved) => DrainKeepsOne(cfg, m, rendered, saved);
    case Connected(session) => ConnectKeepsOne(cfg, m, session);
    case Finish(outcome) => FinishKeepsOne(m, outcome);
    case RunFail => FailKeepsOne(m);
    case Cancel => QuietSteps(cfg, m, Uuid(0), "", "", "");
    case Retired =>
    case Flush =>
    case AskPermission(_) =>
    case AnswerPermission(_) =>
    case TextEvent(_, _, _) =>
    case SaveComment(id, body, quote) => QuietSteps(cfg, m, id, body, quote, "");
    case SwitchHarness(target) => QuietSteps(cfg, m, Uuid(0), "", "", target);
    case MoveOn(step) => MovesLeaveTheQueue(cfg, m, step);
    case Crash => CrashIsSane(cfg, m);
  }

  lemma DrainKeepsOne(cfg: Config, m: Machine, rendered: string, saved: bool)
    requires Sane(m) && OneRunning(m)
    ensures OneRunning(Drained(cfg, m, rendered, saved))
  {
    if CanDrain(m) { assert m.run.None?; }
  }

  lemma ConnectKeepsOne(cfg: Config, m: Machine, session: string)
    requires Sane(m) && OneRunning(m)
    ensures OneRunning(RunConnected(cfg, m, session))
  {
    RunEndsAlone(m);
  }

  lemma FinishKeepsOne(m: Machine, outcome: Outcome)
    requires Sane(m) && OneRunning(m)
    ensures OneRunning(RunFinished(m, outcome))
  {
    RunEndsAlone(m);
  }

  lemma FailKeepsOne(m: Machine)
    requires Sane(m) && OneRunning(m)
    ensures OneRunning(RunFailed(m))
  {
    RunEndsAlone(m);
  }

  /** While the run is linked, ending it leaves nothing running. */
  lemma RunEndsAlone(m: Machine)
    requires Sane(m) && OneRunning(m)
    ensures m.run.Some? ==>
      forall i :: 0 <= i < |m.mem.submissions| && i != IndexOfSubmission(m.mem.submissions, m.run.value.id) ==>
        m.mem.submissions[i].status != Running
    ensures m.run.Some? ==> m.run.value.linked
  {
    if m.run.Some? {
      assert m.mem.submissions[IndexOfSubmission(m.mem.submissions, m.run.value.id)].status == Running;
    }
  }

  /** Queue safety over every run that never rolls a prompt back in flight, crashes included. */
  lemma {:induction false} RunsHaveOneRunning(cfg: Config, m: Machine, es: seq<Event>)
    requires Sane(m) && OneRunning(m) && NeverRollsBackInFlight(cfg, m, es)
    ensures Sane(Steps(cfg, m, es)) && OneRunning(Steps(cfg, m, es))
    decreases es
  {
    if es != [] {
      StepIsSane(cfg, m, es[0]);
      OneRunningExactly(cfg, m, es[0]);
      RunsHaveOneRunning(cfg, Step(cfg, m, es[0]), es[1..]);
    }
  }

  /** After a crash and a reload nothing is running or in progress: what the file had queued or running is
      queued again if the harness can take it up, and failed otherwise; everything else is as saved; and no
      submission accepted in memory is missing. */
  lemma RestartRequeuesOrFails(cfg: Config, m: Machine)
    requires Sane(m)
    ensures var t := Step(cfg, m, Crash);
      && SameFrozen(m.mem.submissions, t.mem.submissions) && |t.mem.submissions| == |m.disk.submissions|
      && t.run == None && t.move == None && t.active == None && !Busy(t.mem)
      && (forall i :: 0 <= i < |t.mem.submissions| ==>
            t.mem.submissions[i].status ==
              if m.disk.submissions[i].status !in {Queued, Running} then m.disk.submissions[i].status
              else if Revives(cfg, m.disk) then Queued else Failed)
  {
    assert Recoverable(cfg, m.disk) == Revives(cfg, m.disk);
    hide Recoverable, Revives;
    CrashIsSane(cfg, m);
  }

  /** The run is over and the Thread idle, but the run's submission is still marked running. */
  ghost predicate Stranded(id: Id, t: Machine) {
    && t.run.None? && t.mem.phase == PhaseIdle
    && exists i :: 0 <= i < |t.mem.submissions| && t.mem.submissions[i].id == id && t.mem.submissions[i].status == Running
  }

  /** Two submissions are marked running. */
  ghost predicate TwoRunning(u: Machine) {
    exists i, j :: 0 <= i < j < |u.mem.submissions| && u.mem.submissions[i].status == Running && u.mem.submissions[j].status == Running
  }

  /** What a caller can see before a drain: it will start something, and something is marked running. */
  ghost predicate StartsBeside(m: Machine, e: Event) {
    && e.Drain? && e.saved && AtRest(m) && m.mem.handoff.None?
    && FirstQueued(m.mem.submissions) < |m.mem.submissions|
    && exists i :: 0 <= i < |m.mem.submissions| && m.mem.submissions[i].status == Running
  }

  /** A second submission runs exactly when a drain finds something queued beside one still marked running;
      while the single running submission is linked to its run, no drain does. */
  lemma TwoRunningExactly(cfg: Config, m: Machine, e: Event)
    requires Sane(m) && !TwoRunning(m)
    ensures TwoRunning(Step(cfg, m, e)) <==> StartsBeside(m, e)
    ensures OneRunning(m) ==> !StartsBeside(m, e)
  {
    if StartsBeside(m, e) {
      var i :| 0 <= i < |m.mem.submissions| && m.mem.submissions[i].status == Running;
      SecondStart(cfg, m, i, e.rendered);
    } else if e.Drain? {
      DrainAlone(cfg, m, e.rendered, e.saved);
    } else {
      AllButDrainStartNothing(cfg, m, e);
      NoneBeside(m, Step(cfg, m, e));
    }
  }

  lemma NoneBeside(m: Machine, t: Machine)
    requires !TwoRunning(m) && NothingStarts(m, t)
    ensures !TwoRunning(t)
  {
  }

  lemma DrainAlone(cfg: Config, m: Machine, rendered: string, saved: bool)
    requires !TwoRunning(m) && !StartsBeside(m, Drain(rendered, saved))
    ensures !TwoRunning(Drained(cfg, m, rendered, saved))
  {
    var t := Drained(cfg, m, rendered, saved);
    assert t.mem.submissions == m.mem.submissions || (CanDrain(m) && m.mem.handoff.None? && saved && FirstQueued(m.mem.submissions) < |m.mem.submissions|);
    if t.mem.submissions == m.mem.submissions { NoneBeside(m, t); }
  }

  /** What an in-flight rollback costs: when the run ends, however it ends, its submission stays marked
      running in an idle Thread, and the next drain runs a second one beside it. */
  lemma RollbackStrandsTheRun(cfg: Config, m: Machine, e: Event, outcome: Outcome, rendered: string)
    requires Sane(m) && OneRunning(m) && RollsBackInFlight(cfg, m, e)
    requires m.run.value.stage == RunPrompting && m.active.Some?
    ensures var t := Step(cfg, Step(cfg, m, e), Finish(outcome));
      && Stranded(m.run.value.id, t)
      && (m.mem.handoff.None? && !m.retiring && FirstQueued(m.mem.submissions) < |m.mem.submissions| ==>
            TwoRunning(Step(cfg, t, Drain(rendered, true))))
  {
    RolledBack(cfg, m, e);
    RunIsRunning(m);
    hide Sane, OneRunning, RollsBackInFlight, Step;
    var r := m.(run := Some(m.run.value.(linked := false)));
    StrandedByFinish(m, r, outcome);
    StepIsFinish(cfg, r, outcome);
    var t := RunFinished(r, outcome);
    hide RunFinished;
    var n := IndexOfSubmission(m.mem.submissions, m.run.value.id);
    assert t.mem.submissions[n].status == Running;
    if m.mem.handoff.None? && !m.retiring && FirstQueued(m.mem.submissions) < |m.mem.submissions| {
      SecondStart(cfg, t, n, rendered);
      StepIsDrain(cfg, t, rendered);
    }
  }

  lemma StepIsFinish(cfg: Config, m: Machine, outcome: Outcome)
    ensures Step(cfg, m, Finish(outcome)) == RunFinished(m, outcome)
  {
  }

  lemma StepIsDrain(cfg: Config, m: Machine, rendered: string)
    ensures Step(cfg, m, Drain(rendered, true)) == Drained(cfg, m, rendered, true)
  {
  }

  lemma RunIsRunning(m: Machine)
    requires Sane(m) && m.run.Some?
    ensures var n := IndexOfSubmission(m.mem.submissions, m.run.value.id);
      n < |m.mem.submissions| && m.mem.submissions[n].status == Running && m.mem.submissions[n].id == m.run.value.id
  {
  }

  lemma RolledBack(cfg: Config, m: Machine, e: Event)
    requires Sane(m) && RollsBackInFlight(cfg, m, e)
    ensures Step(cfg, m, e) == m.(run := Some(m.run.value.(linked := false)))
  {
    AnswersExactly(cfg, m, e.prompt, e.review, e.saved);
    hide Accept, FindReceipt, Acceptable, Admitted;
  }

  lemma StrandedByFinish(m: Machine, r: Machine, outcome: Outcome)
    requires Sane(m) && m.run.Some? && m.run.value.stage == RunPrompting && m.active.Some?
    requires r == m.(run := Some(m.run.value.(linked := false)))
    ensures var t := RunFinished(r, outcome);
      && t.run.None? && t.mem.phase == PhaseIdle && t.retiring == m.retiring && t.mem.handoff == m.mem.handoff
      && t.mem.submissions == m.mem.submissions
  {
  }

  lemma SecondStart(cfg: Config, t: Machine, n: nat, rendered: string)
    requires CanDrain(t) && t.mem.handoff.None? && n < |t.mem.submissions| && t.mem.submissions[n].status == Running
    requires FirstQueued(t.mem.submissions) < |t.mem.submissions|
    ensures TwoRunning(Drained(cfg, t, rendered, true))
  {
    var u := Drained(cfg, t, rendered, true);
    var k := FirstQueued(t.mem.submissions);
    assert k != n && u.mem.submissions[n].status == Running && u.mem.submissions[k].status == Running;
  }
}
