/**
 * Handing a Thread from one harness to another: wherever the handoff stands, and whenever the daemon
 * dies, the Thread is on its way to the last harness asked for; a failed handoff goes back to where it
 * started; the continuation text reaches the next submission and only that one.
 */
module AgentHandoff {
  import opened Common
  import opened AgentTurn
  import opened Transcript
  import opened Receipts
  import opened AgentQueue
  import opened AgentAcceptance
  import opened AgentMachine
  import opened AgentSafety
  import AgentLedger

  function IdOf(cfg: Config, h: Option<Harness>): string {
    if h.Some? then h.value.id else cfg.fallback
  }

  /** Where the Thread is heading: the newest request, else the handoff's target, else where it is. */
  function Heading(cfg: Config, s: AgentState): string {
    if s.handoff.Some? then s.handoff.value.requested.GetOr(s.handoff.value.target) else HarnessId(cfg, s)
  }

  /** Where a failed handoff returns to. */
  function Origin(cfg: Config, m: Machine): string {
    if m.move.Some? then IdOf(cfg, m.move.value.original)
    else if m.mem.handoff.Some? && !m.mem.handoff.value.stage.HandoffQueued? then IdOf(cfg, m.mem.handoff.value.source)
    else HarnessId(cfg, m.mem)
  }

  ghost predicate MoveOk(cfg: Config, m: Machine, v: Move) {
    && m.mem.handoff.Some?
    && v.intent.source == v.original
    && v.intent.operation == m.mem.handoff.value.operation
    && (!v.stage.Failing? ==> v.intent.target == m.mem.handoff.value.target)
    && (m.mem.handoff.value.stage.HandoffQueued? ==> HarnessId(cfg, m.mem) == IdOf(cfg, v.original))
    && (!m.mem.handoff.value.stage.HandoffQueued? ==> m.mem.handoff.value.source == v.original)
    && (v.stage.Retargeted? || v.stage.TargetReady? ==>
          HarnessId(cfg, m.mem) == v.intent.target && m.mem.handoff.value.stage.HandoffPrepared?)
    && (v.stage.Retiring? ==> m.mem.handoff.value.stage.HandoffPrepared?)
  }

  ghost predicate HandoffOk(cfg: Config, m: Machine) {
    && m.mem.handoff == m.disk.handoff
    && m.mem.continuation == m.disk.continuation
    && (m.mem.handoff.None? || m.mem.handoff.value.stage.HandoffQueued? ==> HarnessId(cfg, m.mem) == HarnessId(cfg, m.disk))
    && (m.move.Some? ==> MoveOk(cfg, m, m.move.value))
  }

  predicate SwitchAccepted(cfg: Config, m: Machine, e: Event) {
    && e.SwitchHarness? && e.target in cfg.adapters && e.target in cfg.durable
    && ((m.mem.handoff.Some? && (!m.mem.handoff.value.stage.HandoffQueued? || m.mem.phase.PhaseRunning?))
        || IdOf(cfg, m.mem.harness) in cfg.adapters || IdOf(cfg, m.mem.harness) == cfg.fallback)
  }

  /** The handoff that was under way has failed and its connection is closed. */
  predicate HandoffFails(m: Machine, e: Event) {
    e == MoveOn(Restore) && m.move.Some? && m.move.value.stage.Failing? && !m.retiring
  }

  /** What one step may do to the direction of the Thread. */
  ghost predicate Heads(cfg: Config, m: Machine, e: Event, t: Machine) {
    Heading(cfg, t.mem) ==
      if SwitchAccepted(cfg, m, e) then e.target
      else if HandoffFails(m, e) then Origin(cfg, m)
      else Heading(cfg, m.mem)
  }

  /** Steps that touch neither harness, handoff, continuation nor move. */
  lemma Unmoved(cfg: Config, m: Machine, t: Machine)
    requires HandoffOk(cfg, m)
    requires t.mem.handoff == m.mem.handoff && t.mem.continuation == m.mem.continuation && t.move == m.move
    requires HarnessId(cfg, t.mem) == HarnessId(cfg, m.mem)
    requires t.disk == t.mem || t.disk == m.disk
    ensures HandoffOk(cfg, t) && Heading(cfg, t.mem) == Heading(cfg, m.mem) && Origin(cfg, t) == Origin(cfg, m)
  {
  }

  lemma PromptIsUnmoved(cfg: Config, m: Machine, p: PromptRequest, review: Review, saved: bool)
    requires Sane(m)
    ensures var t := Prompted(cfg, m, p, review, saved).0;
      && t.mem.handoff == m.mem.handoff && t.mem.continuation == m.mem.continuation && t.move == m.move
      && HarnessId(cfg, t.mem) == HarnessId(cfg, m.mem) && (t.disk == t.mem || t.disk == m.disk)
  {
    hide Accept;
    if FindReceipt(m.mem.receipts, p) == Ok(None) && Accept(m.mem, p, review, m.next, cfg.fallback).Ok? {
      if IsRetry(p) {
        RetryShape(m.mem, p, review, m.next, cfg.fallback);
      } else {
        var added := AcceptShape(m.mem, p, review, m.next, cfg.fallback);
      }
    }
  }

  lemma ConnectedIsUnmoved(cfg: Config, m: Machine, session: string)
    ensures var t := RunConnected(cfg, m, session);
      && t.mem.handoff == m.mem.handoff && t.mem.continuation == m.mem.continuation && t.move == m.move
      && HarnessId(cfg, t.mem) == HarnessId(cfg, m.mem) && (t.disk == t.mem || t.disk == m.disk)
  {
  }

  lemma RunEndsUnmoved(cfg: Config, m: Machine, outcome: Outcome)
    ensures var t := RunFinished(m, outcome);
      t.mem.handoff == m.mem.handoff && t.mem.continuation == m.mem.continuation && t.move == m.move
      && HarnessId(cfg, t.mem) == HarnessId(cfg, m.mem) && (t.disk == t.mem || t.disk == m.disk)
    ensures var t := RunFailed(m);
      t.mem.handoff == m.mem.handoff && t.mem.continuation == m.mem.continuation && t.move == m.move
      && HarnessId(cfg, t.mem) == HarnessId(cfg, m.mem) && t.disk == m.disk
  {
  }

  lemma EventsAreUnmoved(cfg: Config, m: Machine, t: Machine, request: string, name: Option<string>, text: string, replace: bool)
    requires t in {Save(m), Cancelling(m), Asking(m, request), Answering(m, request), Receiving(m, name, text, replace)}
    ensures t.mem.handoff == m.mem.handoff && t.mem.continuation == m.mem.continuation && t.move == m.move
    ensures HarnessId(cfg, t.mem) == HarnessId(cfg, m.mem) && (t.disk == t.mem || t.disk == m.disk)
  {
  }

  lemma CommentIsUnmoved(cfg: Config, m: Machine, id: Id, body: string, quote: string)
    ensures var t := Commenting(m, id, body, quote);
      && t.mem.handoff == m.mem.handoff && t.mem.continuation == m.mem.continuation && t.move == m.move
      && HarnessId(cfg, t.mem) == HarnessId(cfg, m.mem) && (t.disk == t.mem || t.disk == m.disk)
  {
  }

  lemma CrashHeads(cfg: Config, m: Machine)
    requires HandoffOk(cfg, m)
    ensures var t := CrashAndReload(cfg, m);
      HandoffOk(cfg, t) && Heading(cfg, t.mem) == Heading(cfg, m.mem) && Origin(cfg, t) == Origin(cfg, m)
  {
    var t := CrashAndReload(cfg, m);
    assert t.mem.handoff == m.disk.handoff && t.mem.harness == m.disk.harness && t.mem.continuation == m.disk.continuation;
  }

  lemma DrainHeads(cfg: Config, m: Machine, rendered: string, saved: bool)
    requires Sane(m) && HandoffOk(cfg, m)
    ensures var t := Drained(cfg, m, rendered, saved);
      HandoffOk(cfg, t) && Heading(cfg, t.mem) == Heading(cfg, m.mem) && Origin(cfg, t) == Origin(cfg, m)
  {
    var t := Drained(cfg, m, rendered, saved);
    if CanDrain(m) && m.mem.handoff.Some? {
      var h := m.mem.handoff.value;
      assert m.move.None?;
      if !Drops(cfg, m.mem, h) {
        StartMoveHeads(cfg, m, Coalesced(h));
      }
    }
  }

  lemma StartMoveHeads(cfg: Config, m: Machine, h: Handoff)
    requires m.move.None? && HandoffOk(cfg, m) && m.mem.handoff.Some? && h == Coalesced(m.mem.handoff.value)
    ensures var t := StartMove(m, h);
      HandoffOk(cfg, t) && Heading(cfg, t.mem) == Heading(cfg, m.mem) && Origin(cfg, t) == Origin(cfg, m)
  {
  }

  /** A switch that arrives while a handoff has begun but not been saved past `queued`, and the harness is
      waiting for a permission. The source then treats the handoff as not begun. */
  predicate Races(m: Machine, e: Event) {
    && e.SwitchHarness? && m.move.Some? && m.mem.phase.PhasePermission?
    && m.mem.handoff.Some? && m.mem.handoff.value.stage.HandoffQueued?
  }

  lemma SwitchHeads(cfg: Config, m: Machine, target: string)
    requires HandoffOk(cfg, m) && (m.move.Some? ==> Busy(m.mem)) && !Races(m, SwitchHarness(target))
    ensures HandoffOk(cfg, Switched(cfg, m, target))
    ensures Heading(cfg, Switched(cfg, m, target).mem) ==
      if SwitchAccepted(cfg, m, SwitchHarness(target)) then target else Heading(cfg, m.mem)
    ensures Origin(cfg, Switched(cfg, m, target)) == Origin(cfg, m)
  {
    var t := Switched(cfg, m, target);
    if m.mem.handoff.Some? && (!m.mem.handoff.value.stage.HandoffQueued? || m.mem.phase.PhaseRunning?) {
      RequestHeads(cfg, m, target);
    } else {
      assert m.move.None?;
    }
  }

  /** A request while a handoff is under way only replaces the newest request. */
  lemma RequestHeads(cfg: Config, m: Machine, target: string)
    requires HandoffOk(cfg, m) && m.mem.handoff.Some?
    ensures var t := Save(m.(mem := m.mem.(handoff := Some(m.mem.handoff.value.(requested := Some(target))))));
      HandoffOk(cfg, t) && Heading(cfg, t.mem) == target && Origin(cfg, t) == Origin(cfg, m)
  {
  }

  lemma MoveHeads(cfg: Config, m: Machine, step: MoveStep)
    requires HandoffOk(cfg, m)
    ensures HandoffOk(cfg, Moved(cfg, m, step))
    ensures Heading(cfg, Moved(cfg, m, step).mem) ==
      if HandoffFails(m, MoveOn(step)) then Origin(cfg, m) else Heading(cfg, m.mem)
    ensures step != MoveStep.Complete && !HandoffFails(m, MoveOn(step)) ==> Origin(cfg, Moved(cfg, m, step)) == Origin(cfg, m)
  {
    if m.move.Some? {
      match step
      case ConnectSource(session) => ConnectSourceHeads(cfg, m, session);
      case AskSummary(rendered) => SummaryHeads(cfg, m, rendered, "");
      case TakeSummary(text) => SummaryHeads(cfg, m, "", text);
      case Prepare => PrepareHeads(cfg, m);
      case Retarget => RetargetHeads(cfg, m);
      case ConnectTarget(session) => ConnectTargetHeads(cfg, m, session);
      case Complete => CompleteHeads(cfg, m);
      case FailMove =>
      case Restore =>
    }
  }

  lemma ConnectSourceHeads(cfg: Config, m: Machine, session: string)
    requires HandoffOk(cfg, m)
    ensures var t := Moved(cfg, m, ConnectSource(session)); HandoffOk(cfg, t) && Heading(cfg, t.mem) == Heading(cfg, m.mem) && Origin(cfg, t) == Origin(cfg, m)
  {
  }

  lemma SummaryHeads(cfg: Config, m: Machine, rendered: string, text: string)
    requires HandoffOk(cfg, m)
    ensures var t := Moved(cfg, m, AskSummary(rendered)); HandoffOk(cfg, t) && Heading(cfg, t.mem) == Heading(cfg, m.mem) && Origin(cfg, t) == Origin(cfg, m)
    ensures var t := Moved(cfg, m, TakeSummary(text)); HandoffOk(cfg, t) && Heading(cfg, t.mem) == Heading(cfg, m.mem) && Origin(cfg, t) == Origin(cfg, m)
  {
  }

  lemma PrepareHeads(cfg: Config, m: Machine)
    requires HandoffOk(cfg, m)
    ensures var t := Moved(cfg, m, Prepare); HandoffOk(cfg, t) && Heading(cfg, t.mem) == Heading(cfg, m.mem) && Origin(cfg, t) == Origin(cfg, m)
  {
  }

  lemma RetargetHeads(cfg: Config, m: Machine)
    requires HandoffOk(cfg, m)
    ensures var t := Moved(cfg, m, Retarget); HandoffOk(cfg, t) && Heading(cfg, t.mem) == Heading(cfg, m.mem) && Origin(cfg, t) == Origin(cfg, m)
  {
  }

  lemma ConnectTargetHeads(cfg: Config, m: Machine, session: string)
    requires HandoffOk(cfg, m)
    ensures var t := Moved(cfg, m, ConnectTarget(session)); HandoffOk(cfg, t) && Heading(cfg, t.mem) == Heading(cfg, m.mem) && Origin(cfg, t) == Origin(cfg, m)
  {
  }

  lemma CompleteHeads(cfg: Config, m: Machine)
    requires HandoffOk(cfg, m)
    ensures var t := Moved(cfg, m, MoveStep.Complete); HandoffOk(cfg, t) && Heading(cfg, t.mem) == Heading(cfg, m.mem)
  {
  }

  lemma MoveIsBusy(m: Machine)
    requires Sane(m)
    ensures m.move.Some? ==> Busy(m.mem)
  {
  }

  /** Only an accepted switch or a failed handoff changes where the Thread is heading. */
  lemma {:induction false} StepHeads(cfg: Config, m: Machine, e: Event)
    requires Sane(m) && HandoffOk(cfg, m) && !Races(m, e)
    ensures HandoffOk(cfg, Step(cfg, m, e)) && Heads(cfg, m, e, Step(cfg, m, e))
    ensures e != MoveOn(MoveStep.Complete) && !HandoffFails(m, e) ==> Origin(cfg, Step(cfg, m, e)) == Origin(cfg, m)
  {
    hide HandoffOk, Sane, Prompted, Drained, RunConnected, RunFinished, RunFailed,
      Cancelling, Commenting, Switched, Moved, Receiving, Asking, Answering, CrashAndReload, Save;
    var t := Step(cfg, m, e);
    match e
    case AcceptPrompt(p, review, saved) => PromptIsUnmoved(cfg, m, p, review, saved); Unmoved(cfg, m, t);
    case Drain(rendered, saved) => DrainHeads(cfg, m, rendered, saved);
    case Connected(session) => ConnectedIsUnmoved(cfg, m, session); Unmoved(cfg, m, t);
    case Finish(outcome) => RunEndsUnmoved(cfg, m, outcome); Unmoved(cfg, m, t);
    case RunFail => RunEndsUnmoved(cfg, m, OutcomeFailed); Unmoved(cfg, m, t);
    case Retired => Unmoved(cfg, m, t);
    case Flush => EventsAreUnmoved(cfg, m, t, "", None, "", false); Unmoved(cfg, m, t);
    case Cancel => EventsAreUnmoved(cfg, m, t, "", None, "", false); Unmoved(cfg, m, t);
    case AskPermission(request) => EventsAreUnmoved(cfg, m, t, request, None, "", false); Unmoved(cfg, m, t);
    case AnswerPermission(request) => EventsAreUnmoved(cfg, m, t, request, None, "", false); Unmoved(cfg, m, t);
    case TextEvent(name, text, replace) => EventsAreUnmoved(cfg, m, t, "", name, text, replace); Unmoved(cfg, m, t);
    case SaveComment(id, body, quote) => CommentIsUnmoved(cfg, m, id, body, quote); Unmoved(cfg, m, t);
    case SwitchHarness(target) => MoveIsBusy(m); SwitchHeads(cfg, m, target);
    case MoveOn(step) => MoveHeads(cfg, m, step);
    case Crash => CrashHeads(cfg, m);
  }

  /** The last accepted switch request, or where the last failed handoff went back to. */
  function LastWish(cfg: Config, m: Machine, es: seq<Event>, wish: string): string
    decreases es
  {
    if es == [] then wish
    else
      var next := if SwitchAccepted(cfg, m, es[0]) then es[0].target
                  else if HandoffFails(m, es[0]) then Origin(cfg, m)
                  else wish;
      LastWish(cfg, Step(cfg, m, es[0]), es[1..], next)
  }

  predicate NeverRaces(cfg: Config, m: Machine, es: seq<Event>)
    decreases es
  {
    es == [] || (!Races(m, es[0]) && NeverRaces(cfg, Step(cfg, m, es[0]), es[1..]))
  }

  /** Handoff convergence, over every run and at every crash: in memory and after a reload from disk, the
      Thread is heading for the last accepted request since a handoff last failed. */
  lemma {:induction false} HeadingIsTheLastWish(cfg: Config, m: Machine, es: seq<Event>)
    requires Sane(m) && HandoffOk(cfg, m) && NeverRaces(cfg, m, es)
    ensures var t := Steps(cfg, m, es);
      && Sane(t) && HandoffOk(cfg, t)
      && Heading(cfg, t.mem) == LastWish(cfg, m, es, Heading(cfg, m.mem))
      && Heading(cfg, Reload(cfg, t.disk)) == Heading(cfg, t.mem)
    decreases es
  {
    if es == [] {
      CrashHeads(cfg, m);
      assert CrashAndReload(cfg, m).mem == Reload(cfg, m.disk);
    } else {
      StepIsSane(cfg, m, es[0]);
      StepHeads(cfg, m, es[0]);
      HeadingIsTheLastWish(cfg, Step(cfg, m, es[0]), es[1..]);
    }
  }

  /** When nothing is pending any more, the Thread has arrived: its harness is the last wish. */
  lemma {:induction false} ArrivedAtTheLastWish(cfg: Config, m: Machine, es: seq<Event>)
    requires Sane(m) && HandoffOk(cfg, m) && NeverRaces(cfg, m, es) && Steps(cfg, m, es).mem.handoff.None?
    ensures HarnessId(cfg, Steps(cfg, m, es).mem) == LastWish(cfg, m, es, Heading(cfg, m.mem))
  {
    HeadingIsTheLastWish(cfg, m, es);
  }

  /** What a racing switch comes to: it is accepted, and the handoff's next save puts its own target back,
      so the request is lost exactly when it asked for another harness. */
  lemma {:induction false} RacingSwitchIsLost(cfg: Config, m: Machine, target: string, rendered: string)
    requires HandoffOk(cfg, m) && Races(m, SwitchHarness(target)) && SwitchAccepted(cfg, m, SwitchHarness(target))
    ensures var t := Switched(cfg, m, target);
      && Heading(cfg, t.mem) == target
      && (m.move.value.stage.SourceReady? && m.active.Some? ==>
            Heading(cfg, Moved(cfg, t, AskSummary(rendered)).mem) == m.move.value.intent.target)
      && (m.move.value.stage.HasText? ==>
            Heading(cfg, Moved(cfg, t, Prepare).mem) == m.move.value.intent.target)
  {
    var t := Switched(cfg, m, target);
    assert t.move == m.move && t.active == m.active && LatestRequest(t) == None;
  }

  predicate NeverFails(cfg: Config, m: Machine, es: seq<Event>)
    decreases es
  {
    es == [] || (!HandoffFails(m, es[0]) && NeverFails(cfg, Step(cfg, m, es[0]), es[1..]))
  }

  /** A handoff that fails puts the Thread back on the harness it had when the handoff was still only
      queued, however many crashes and resumptions lie between. */
  lemma {:induction false} FailedHandoffGoesBack(cfg: Config, m: Machine, es: seq<Event>, last: Event)
    requires Sane(m) && HandoffOk(cfg, m) && NeverRaces(cfg, m, es + [last])
    requires NoCompletion(es) && NeverFails(cfg, m, es)
    requires HandoffFails(Steps(cfg, m, es), last)
    ensures var t := Step(cfg, Steps(cfg, m, es), last);
      && t.mem.handoff == None && t.disk == t.mem
      && HarnessId(cfg, t.mem) == Origin(cfg, m)
      && (m.move.None? && (m.mem.handoff.Some? ==> m.mem.handoff.value.stage.HandoffQueued?) ==>
            HarnessId(cfg, t.mem) == HarnessId(cfg, m.mem))
    decreases es
  {
    if es == [] {
      assert es + [last] == [last];
      StepHeads(cfg, m, last);
    } else {
      assert (es + [last])[1..] == es[1..] + [last];
      StepIsSane(cfg, m, es[0]);
      StepHeads(cfg, m, es[0]);
      FailedHandoffGoesBack(cfg, Step(cfg, m, es[0]), es[1..], last);
    }
  }

  // ---- the continuation text ----

  /** Submission i is started by this step, and told `text`. */
  ghost predicate Starts(cfg: Config, m: Machine, e: Event, i: nat) {
    && e.Drain? && e.saved && CanDrain(m) && m.mem.handoff.None?
    && i == FirstQueued(m.mem.submissions) < |m.mem.submissions|
  }

  /** Between handoffs, the continuation waits, in memory and on disk, until the step that starts the next
      submission; that step prefixes exactly that submission's prompt and clears it in the same save. */
  lemma {:induction false} ContinuationStep(cfg: Config, m: Machine, e: Event)
    requires Sane(m) && HandoffOk(cfg, m) && !Races(m, e) && e != MoveOn(MoveStep.Complete)
    ensures var t := Step(cfg, m, e);
      && t.disk.continuation == t.mem.continuation
      && (if exists i :: Starts(cfg, m, e, i)
          then
            var i := FirstQueued(m.mem.submissions);
            && t.mem.continuation == None && t.disk == t.mem && |t.mem.submissions| == |m.mem.submissions|
            && t.mem.submissions[i].harnessPrompt == Some(StartText(m.mem, m.mem.submissions[i], e.rendered))
            && (m.mem.continuation.None? && m.mem.submissions[i].harnessPrompt.Some? ==>
                  t.mem.submissions[i].harnessPrompt == m.mem.submissions[i].harnessPrompt)
            && forall k :: 0 <= k < |m.mem.submissions| && k != i ==>
                 t.mem.submissions[k].harnessPrompt == m.mem.submissions[k].harnessPrompt
          else
            && t.mem.continuation == m.mem.continuation
            && |m.mem.submissions| <= |t.mem.submissions|
            && forall k :: 0 <= k < |m.mem.submissions| ==>
                 t.mem.submissions[k].harnessPrompt == m.mem.submissions[k].harnessPrompt)
  {
    StepHeads(cfg, m, e);
    var t := Step(cfg, m, e);
    if exists i :: Starts(cfg, m, e, i) {
      assert t == StartSubmission(m, FirstQueued(m.mem.submissions), e.rendered);
    } else {
      PromptsKept(cfg, m, e);
    }
  }

  lemma PromptsKept(cfg: Config, m: Machine, e: Event)
    requires Sane(m) && e != MoveOn(MoveStep.Complete) && !(exists i :: Starts(cfg, m, e, i))
    ensures Step(cfg, m, e).mem.continuation == m.mem.continuation || e.Crash?
    ensures |m.mem.submissions| <= |Step(cfg, m, e).mem.submissions|
    ensures forall k :: 0 <= k < |m.mem.submissions| ==>
      Step(cfg, m, e).mem.submissions[k].harnessPrompt == m.mem.submissions[k].harnessPrompt
  {
    hide Sane, Prompted, Drained, RunConnected, RunFinished, RunFailed,
      Cancelling, Commenting, Switched, Moved, Receiving, Asking, Answering, CrashAndReload, Save;
    var t := Step(cfg, m, e);
    match e
    case AcceptPrompt(p, review, saved) => PromptIsUnmoved(cfg, m, p, review, saved); PromptKeepsPrompts(cfg, m, p, review, saved);
    case Drain(rendered, saved) => DrainKeepsPrompts(cfg, m, rendered, saved);
    case Connected(session) => ConnectedIsUnmoved(cfg, m, session); AgentLedger.ConnectedKeeps(cfg, m, session); FrozenPrompts(m, t);
    case Finish(outcome) => RunEndsUnmoved(cfg, m, outcome); AgentLedger.FinishKeeps(m, outcome); FrozenPrompts(m, t);
    case RunFail => RunEndsUnmoved(cfg, m, OutcomeFailed); FailKeepsPrompts(m);
    case Retired =>
    case Flush => EventsAreUnmoved(cfg, m, t, "", None, "", false); AgentLedger.EventsKeep(m, "", None, "", false);
    case Cancel => EventsAreUnmoved(cfg, m, t, "", None, "", false); AgentLedger.CancelKeeps(m); FrozenPrompts(m, t);
    case AskPermission(r) => EventsAreUnmoved(cfg, m, t, r, None, "", false); AgentLedger.EventsKeep(m, r, None, "", false);
    case AnswerPermission(r) => EventsAreUnmoved(cfg, m, t, r, None, "", false); AgentLedger.EventsKeep(m, r, None, "", false);
    case TextEvent(n, text, r) => EventsAreUnmoved(cfg, m, t, "", n, text, r); AgentLedger.EventsKeep(m, "", n, text, r);
    case SaveComment(id, b, q) => CommentIsUnmoved(cfg, m, id, b, q); AgentLedger.CommentKeeps(m, id, b, q);
    case SwitchHarness(target) => SwitchKeepsContinuation(cfg, m, target); AgentLedger.SwitchKeeps(cfg, m, target);
    case MoveOn(step) => MoveKeepsContinuation(cfg, m, step); AgentLedger.MovesKeep(cfg, m, step);
    case Crash => CrashIsSane(cfg, m); FrozenPrompts(m, t);
  }

  lemma FrozenPrompts(m: Machine, t: Machine)
    requires SameFrozen(m.mem.submissions, t.mem.submissions)
    ensures forall k :: 0 <= k < |m.mem.submissions| ==>
      t.mem.submissions[k].harnessPrompt == m.mem.submissions[k].harnessPrompt
  {
    forall k | 0 <= k < |m.mem.submissions| ensures t.mem.submissions[k].harnessPrompt == m.mem.submissions[k].harnessPrompt {
      assert Frozen(m.mem.submissions[k]) == Frozen(t.mem.submissions[k]);
    }
  }

  lemma FailKeepsPrompts(m: Machine)
    ensures |RunFailed(m).mem.submissions| == |m.mem.submissions|
    ensures forall k :: 0 <= k < |m.mem.submissions| ==>
      RunFailed(m).mem.submissions[k].harnessPrompt == m.mem.submissions[k].harnessPrompt
  {
  }

  lemma DrainKeepsPrompts(cfg: Config, m: Machine, rendered: string, saved: bool)
    requires !(exists i :: Starts(cfg, m, Drain(rendered, saved), i))
    ensures Drained(cfg, m, rendered, saved).mem.submissions == m.mem.submissions
    ensures Drained(cfg, m, rendered, saved).mem.continuation == m.mem.continuation
  {
    assert !Starts(cfg, m, Drain(rendered, saved), FirstQueued(m.mem.submissions));
  }

  lemma SwitchKeepsContinuation(cfg: Config, m: Machine, target: string)
    ensures Switched(cfg, m, target).mem.continuation == m.mem.continuation
  {
  }

  lemma MoveKeepsContinuation(cfg: Config, m: Machine, step: MoveStep)
    requires step != MoveStep.Complete
    ensures Moved(cfg, m, step).mem.continuation == m.mem.continuation
  {
  }

  lemma PromptKeepsPrompts(cfg: Config, m: Machine, p: PromptRequest, review: Review, saved: bool)
    requires Sane(m)
    ensures var t := Prompted(cfg, m, p, review, saved).0;
      && |m.mem.submissions| <= |t.mem.submissions|
      && forall k :: 0 <= k < |m.mem.submissions| ==> t.mem.submissions[k].harnessPrompt == m.mem.submissions[k].harnessPrompt
  {
    hide Accept;
    if FindReceipt(m.mem.receipts, p) == Ok(None) && Accept(m.mem, p, review, m.next, cfg.fallback).Ok? {
      if IsRetry(p) {
        RetryShape(m.mem, p, review, m.next, cfg.fallback);
      } else {
        var added := AcceptShape(m.mem, p, review, m.next, cfg.fallback);
      }
    }
  }

  predicate NoCompletion(es: seq<Event>) {
    MoveOn(MoveStep.Complete) !in es
  }

  /** The continuation waits, in memory and on disk, for the first k steps; if k is not the end, step k
      starts the first queued submission with exactly this continuation in front and clears it durably. */
  ghost predicate Reaches(cfg: Config, m: Machine, es: seq<Event>, text: string, k: nat) {
    && k <= |es|
    && (forall j :: 0 <= j <= k ==> Waits(Steps(cfg, m, es[..j]), text))
    && (k < |es| ==> StartsWith(cfg, Steps(cfg, m, es[..k]), es[k], text))
  }

  ghost predicate Waits(m: Machine, text: string) {
    m.mem.continuation == m.disk.continuation == Some(text)
  }

  ghost predicate StartsWith(cfg: Config, before: Machine, e: Event, text: string) {
    var i := FirstQueued(before.mem.submissions);
    && e.Drain? && i < |before.mem.submissions|
    && var after := Step(cfg, before, e);
    && i < |after.mem.submissions| && after.disk == after.mem && after.mem.continuation == None
    && after.mem.submissions[i].harnessPrompt ==
         Some(Continue(text, before.mem.submissions[i].harnessPrompt.GetOr(e.rendered)))
  }

  /** Over any run without a further completed handoff, the continuation waits until some step starts the
      next submission with it, or to the end. */
  lemma {:induction false} ContinuationReachesTheNextStart(cfg: Config, m: Machine, es: seq<Event>, text: string) returns (k: nat)
    requires Sane(m) && HandoffOk(cfg, m) && NeverRaces(cfg, m, es) && NoCompletion(es)
    requires m.mem.continuation == Some(text)
    ensures Reaches(cfg, m, es, text, k)
    decreases es
  {
    if es == [] {
      k := 0;
      assert es[..0] == [];
    } else if exists i :: Starts(cfg, m, es[0], i) {
      k := 0;
      StartNow(cfg, m, es, text);
    } else {
      ContinuationStep(cfg, m, es[0]);
      StepIsSane(cfg, m, es[0]);
      StepHeads(cfg, m, es[0]);
      hide Step, Reaches, Sane;
      var rest := ContinuationReachesTheNextStart(cfg, Step(cfg, m, es[0]), es[1..], text);
      k := rest + 1;
      StartLater(cfg, m, es, text, rest);
    }
  }

  lemma StartNow(cfg: Config, m: Machine, es: seq<Event>, text: string)
    requires Sane(m) && HandoffOk(cfg, m) && es != [] && !Races(m, es[0]) && m.mem.continuation == Some(text)
    requires exists i :: Starts(cfg, m, es[0], i)
    ensures Reaches(cfg, m, es, text, 0)
  {
    assert es[..0] == [];
    assert es[0] != MoveOn(MoveStep.Complete);
    ContinuationStep(cfg, m, es[0]);
  }

  lemma StartLater(cfg: Config, m: Machine, es: seq<Event>, text: string, rest: nat)
    requires es != [] && Waits(m, text) && Reaches(cfg, Step(cfg, m, es[0]), es[1..], text, rest)
    ensures Reaches(cfg, m, es, text, rest + 1)
  {
    hide Step, StartsWith, Waits;
    assert es[..0] == [];
    forall j | 0 <= j <= rest + 1 ensures Waits(Steps(cfg, m, es[..j]), text) {
      if j > 0 { StepsFromFirst(cfg, m, es, j); }
    }
    StepsFromFirst(cfg, m, es, rest + 1);
    assert rest + 1 < |es| ==> es[rest + 1] == es[1..][rest];
  }

  lemma StepsFromFirst(cfg: Config, m: Machine, es: seq<Event>, j: nat)
    requires 0 < j <= |es|
    ensures Steps(cfg, m, es[..j]) == Steps(cfg, Step(cfg, m, es[0]), es[1..][..j - 1])
  {
    hide Step;
    assert es[..j][0] == es[0] && es[..j][1..] == es[1..][..j - 1];
  }

  /** With no continuation waiting and no handoff completing, no start is ever prefixed. */
  lemma {:induction false} NoContinuationNoPrefix(cfg: Config, m: Machine, es: seq<Event>)
    requires Sane(m) && HandoffOk(cfg, m) && NeverRaces(cfg, m, es) && NoCompletion(es)
    requires m.mem.continuation == None
    ensures Steps(cfg, m, es).mem.continuation == None
    decreases es
  {
    if es != [] {
      ContinuationStep(cfg, m, es[0]);
      StepIsSane(cfg, m, es[0]);
      StepHeads(cfg, m, es[0]);
      NoContinuationNoPrefix(cfg, Step(cfg, m, es[0]), es[1..]);
    }
  }
}
