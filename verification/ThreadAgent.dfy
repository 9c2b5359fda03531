/**
 * `ThreadAgentManager` for one Thread (packages/daemon/src/thread-agent.ts): the record it mutates, its
 * suspended computations, and the file the last save wrote. Every method takes the machine's step, and `Run`
 * carries the theorems about the machine's runs over to this object.
 */
module ThreadAgents {
  import opened Common
  import opened Text
  import opened AgentTurn
  import opened Transcript
  import opened Receipts
  import opened AgentQueue
  import opened AgentMachine
  import AgentHistory
  import AgentLedger
  import AgentSafety
  import AgentTheorems

  class ThreadAgent {
    const cfg: Config

    /** The record: states.get(id). */
    var state: AgentState

    /** The file. */
    var disk: AgentState

    // what only memory knows
    var active: Option<Active>
    var retiring: bool
    var run: Option<Run>
    var move: Option<Move>

    /** UUIDs minted so far, and every prompt handed to a harness. */
    var next: nat
    var sent: seq<Dispatch>

    ghost function View(): Machine
      reads this
    {
      Machine(state, disk, active, retiring, run, move, next, sent)
    }

    constructor (cfg: Config)
      ensures View() == START && this.cfg == cfg
    {
      this.cfg := cfg;
      state, disk, active, retiring, run, move, next, sent := INITIAL, INITIAL, None, false, None, None, 0, [];
    }

    // ---- settling and saving ----

    /** submissions.some(entry => !entry || queued || running), over the batch */
    method IsPending(batch: seq<Id>) returns (pending: bool)
      ensures pending == Pending(state.submissions, batch)
    {
      pending := false;
      var i := 0;
      while i < |batch| && !pending
        invariant 0 <= i <= |batch|
        invariant !pending ==> forall j :: 0 <= j < i ==> !Unsettled(state.submissions, batch[j])
        invariant pending ==> Pending(state.submissions, batch)
      {
        if Unsettled(state.submissions, batch[i]) { pending := true; }
        i := i + 1;
      }
    }

    method HasMemberWhere(batch: seq<Id>, passes: Submission -> bool) returns (found: bool)
      ensures found == HasMember(state.submissions, batch, passes)
    {
      found := false;
      var i := 0;
      while i < |batch| && !found
        invariant 0 <= i <= |batch|
        invariant !found ==> forall j :: 0 <= j < i ==>
          var n := IndexOfSubmission(state.submissions, batch[j]); n == |state.submissions| || !passes(state.submissions[n])
        invariant found ==> HasMember(state.submissions, batch, passes)
      {
        var n := IndexOfSubmission(state.submissions, batch[i]);
        if n < |state.submissions| && passes(state.submissions[n]) { found := true; }
        i := i + 1;
      }
    }

    /** settlePromptOperations */
    method SettleReceipts()
      modifies this`state
      ensures state == Settle(old(state))
    {
      ghost var before := state;
      var i := 0;
      while i < |state.receipts|
        invariant 0 <= i <= |state.receipts| == |before.receipts|
        invariant state == before.(receipts := state.receipts)
        invariant forall j :: 0 <= j < i ==> state.receipts[j] == SettleReceipt(before.submissions, before.receipts[j])
        invariant forall j :: i <= j < |state.receipts| ==> state.receipts[j] == before.receipts[j]
      {
        var r := state.receipts[i];
        if r.outcome.None? && r.batch != [] {
          var pending := IsPending(r.batch);
          if !pending {
            var cancelled := HasMemberWhere(r.batch, (q: Submission) => q.cancelled);
            var failed := HasMemberWhere(r.batch, (q: Submission) => q.status == Failed);
            var outcome := if cancelled then OutcomeCancelled else if failed then OutcomeFailed else OutcomeCompleted;
            assert outcome == OutcomeOf(state.submissions, r.batch);
            state := state.(receipts := state.receipts[i := r.(outcome := Some(outcome))]);
          }
        }
        i := i + 1;
      }
      assert state.receipts == SettleAll(before.submissions, before.receipts);
    }

    /** save: settle, then replace the file atomically */
    method Store()
      modifies this`state, this`disk
      ensures View() == Save(old(View()))
    {
      SettleReceipts();
      disk := state;
    }

    // ---- crash and reload ----

    method IsInterrupted() returns (interrupted: bool)
      ensures interrupted == Interrupted(state)
    {
      interrupted := state.phase.PhaseRunning? || state.phase.PhasePermission?;
      var k := 0;
      while k < |state.submissions| && !interrupted
        invariant 0 <= k <= |state.submissions|
        invariant interrupted ==> Interrupted(state)
        invariant !interrupted ==> !Busy(state) && forall j :: 0 <= j < k ==> state.submissions[j].status !in {Queued, Running}
      {
        if state.submissions[k].status in {Queued, Running} { interrupted := true; }
        k := k + 1;
      }
    }

    method ResetInterrupted(recoverable: bool)
      modifies this`state
      ensures state == old(state).(submissions := ResetSubmissions(old(state).submissions, recoverable))
    {
      ghost var before := state;
      var i := 0;
      while i < |state.submissions|
        invariant 0 <= i <= |state.submissions| == |before.submissions|
        invariant state == before.(submissions := state.submissions)
        invariant forall j :: 0 <= j < i ==> state.submissions[j] == ResetSubmissions(before.submissions, recoverable)[j]
        invariant forall j :: i <= j < |state.submissions| ==> state.submissions[j] == before.submissions[j]
      {
        var q := state.submissions[i];
        if q.status in {Queued, Running} {
          state := state.(submissions := state.submissions[i := q.(status := if recoverable then Queued else Failed)]);
        }
        i := i + 1;
      }
      assert state.submissions == ResetSubmissions(before.submissions, recoverable);
    }

    /** get, after the process died: only the file is left */
    method Recover()
      modifies this
      ensures View() == CrashAndReload(cfg, old(View()))
    {
      hide Settle, ResetSubmissions, Interrupted, Recoverable;
      state := disk;
      active, retiring, run, move := None, false, None, None;
      var interrupted := IsInterrupted();
      if interrupted {
        var recoverable := Recoverable(cfg, state);
        state := state.(phase := if recoverable then PhaseIdle else PhaseFailed);
        ResetInterrupted(recoverable);
      }
      SettleReceipts();
    }

    // ---- prompting ----

    method CountActive() returns (count: nat)
      ensures count == ActiveCount(state.submissions)
    {
      count := 0;
      var i := |state.submissions|;
      while i > 0
        invariant 0 <= i <= |state.submissions|
        invariant count == ActiveCount(state.submissions[i..])
      {
        i := i - 1;
        assert state.submissions[i..][1..] == state.submissions[i + 1..];
        if state.submissions[i].status == Queued || state.submissions[i].status == Running { count := count + 1; }
      }
      assert state.submissions[0..] == state.submissions;
    }

    method EnqueueInput(input: QueueInput, id: Id) returns (refused: Option<Refusal>)
      modifies this`state
      ensures match Enqueue(old(state), input, id)
        case Err(e) => refused == Some(e)
        case Ok(s) => refused == None && state == s
    {
      var count := CountActive();
      var used := UsedBytes(state.messages);
      if |state.messages| + count + 2 > QUEUE_LIMIT { return Some(LimitReached); }
      if Utf8.ByteLength(input.prompt) > MESSAGE_LIMIT || Utf8.ByteLength(input.quote) > MESSAGE_LIMIT {
        return Some(LimitReached);
      }
      if used + Utf8.ByteLength(input.prompt) > TRANSCRIPT_LIMIT { return Some(LimitReached); }
      state := state.(submissions := state.submissions + [NewSubmission(id, input)],
                      messages := state.messages + [Message(OfInput(id), id, true, input.prompt, true)]);
      return None;
    }

    method EnqueueOneComment(review: Review, comment: Id, frozen: Option<PromptRequest>, id: Id) returns (refused: Option<Refusal>)
      modifies this`state
      ensures match EnqueueComment(old(state), review, comment, frozen, id)
        case Err(e) => refused == Some(e)
        case Ok(s) => refused == None && state == s
    {
      hide Enqueue;
      var input := CommentInput(state, review, comment, frozen);
      if input.None? || HasComment(state.submissions, comment) { return Some(CommentUnavailable); }
      refused := EnqueueInput(input.value, id);
      if refused.Some? { return; }
      var n := IndexOfComment(state.comments, comment);
      if n < |state.comments| {
        state := state.(comments := state.comments[n := state.comments[n].(sent := true)]);
      }
    }

    method EnqueueEach(review: Review, list: seq<Id>, first: nat) returns (refused: Option<Refusal>)
      modifies this`state
      ensures match EnqueueComments(old(state), review, list, first)
        case Err(e) => refused == Some(e)
        case Ok(s) => refused == None && state == s
    {
      hide EnqueueComment;
      refused := None;
      var i := 0;
      while i < |list|
        invariant 0 <= i <= |list| && refused == None
        invariant EnqueueComments(old(state), review, list, first) == EnqueueComments(state, review, list[i..], first + i)
      {
        assert list[i..][0] == list[i] && list[i..][1..] == list[i + 1..];
        refused := EnqueueOneComment(review, list[i], None, Uuid(first + i));
        if refused.Some? { return; }
        i := i + 1;
      }
      assert list[i..] == [];
    }

    method EnqueueText(p: PromptRequest, n: nat) returns (refused: Option<Refusal>)
      modifies this`state
      ensures match EnqueuePlain(old(state), p, n)
        case Err(e) => refused == Some(e)
        case Ok(s) => refused == None && state == s
    {
      refused := None;
      if Trim(p.text) != "" {
        refused := EnqueueInput(QueueInput(Trim(p.text), p.context.GetOr(""), None, None), InputId(p, n));
      }
    }

    method EnqueueAll(p: PromptRequest, review: Review) returns (refused: Option<Refusal>)
      modifies this`state
      ensures match EnqueueBatch(old(state), p, review, next)
        case Err(e) => refused == Some(e)
        case Ok(s) => refused == None && state == s
    {
      hide EnqueueComments, EnqueuePlain, BatchAnnotations, OwnComments;
      var notes := BatchAnnotations(state, p, review);
      refused := EnqueueEach(review, notes, next);
      if refused.Some? { return; }
      var own := OwnComments(state, p);
      refused := EnqueueEach(review, own, next + |notes|);
      if refused.Some? { return; }
      refused := EnqueueText(p, next + |notes| + |own|);
    }

    method RetryOne(id: Id) returns (refused: Option<Refusal>)
      modifies this`state
      ensures match RetrySubmission(old(state), id, Uuid(next))
        case Err(e) => refused == Some(e)
        case Ok(s) => refused == None && state == s
    {
      var n := IndexOfSubmission(state.submissions, id);
      if n == |state.submissions| || state.submissions[n].status != Failed { return Some(RetryNotFailed); }
      var q := state.submissions[n];
      state := state.(submissions := state.submissions[n := q.(cancelled := false, attempt := Some(Uuid(next)),
                                                              status := StepSubmission(q.status, Retry, true))]);
      return None;
    }

    /** The `try` of prompt: may stop half way, and then the caller rolls back. */
    method TryAccept(p: PromptRequest, review: Review) returns (refused: Option<Refusal>)
      modifies this`state
      ensures match Accept(old(state), p, review, next, cfg.fallback)
        case Err(e) => refused == Some(e)
        case Ok(s) => refused == None && state == s
    {
      hide EnqueueComment, RetrySubmission, EnqueueBatch;
      var before := state;
      if state.harness.None? { state := state.(harness := Some(Harness(cfg.fallback, None))); }
      if p.comment.Some? {
        refused := EnqueueOneComment(review, p.comment.value, if p.discussion.Some? then Some(p) else None, InputId(p, next));
      } else if p.retry.Some? {
        refused := RetryOne(p.retry.value);
      } else {
        refused := EnqueueAll(p, review);
      }
      if refused.Some? { return; }
      if p.operation.Some? {
        var batch := if p.retry.Some? then [p.retry.value] else NewIds(before.submissions, state.submissions);
        if batch == [] { return Some(OperationWithoutInput); }
        state := state.(receipts := state.receipts + [Receipt(p.operation.value, FingerprintOf(p), batch, None)]);
      }
    }

    /** prompt, up to its drain. `saved` is whether the file could be written. */
    method Prompt(p: PromptRequest, review: Review, saved: bool) returns (outcome: PromptOutcome)
      modifies this
      ensures (View(), outcome) == Prompted(cfg, old(View()), p, review, saved)
    {
      hide Accept, FindReceipt, Settle, Minted, Available;
      var receipt := FindReceipt(state.receipts, p);
      if receipt.Err? { return Refused(receipt.error); }
      if receipt.value.Some? { return Repeated; }
      if !review.pending { return Refused(ReviewResolved); }
      if !Available(cfg, state) { return Refused(HarnessUnavailable); }
      var before := state;
      var refused := TryAccept(p, review);
      if refused.None? && saved {
        next := next + Minted(before, review);
        Store();
        return Accepted;
      }
      // restoreAgentState: equal values, but copies, so a suspended run no longer points into the queue
      state := before;
      if run.Some? { run := Some(run.value.(linked := false)); }
      return RolledBack(refused.GetOr(SaveFailed));
    }

    // ---- draining ----

    method FindQueued() returns (n: nat)
      ensures n == FirstQueued(state.submissions)
    {
      n := 0;
      while n < |state.submissions| && state.submissions[n].status != Queued
        invariant 0 <= n <= |state.submissions|
        invariant forall j :: 0 <= j < n ==> state.submissions[j].status != Queued
      {
        n := n + 1;
      }
    }

    /** drain, up to its first save */
    method DrainOnce(rendered: string, saved: bool)
      modifies this
      ensures View() == Drained(cfg, old(View()), rendered, saved)
    {
      hide StartSubmission, StartMove, Save;
      if state.phase.PhaseRunning? || state.phase.PhasePermission? || retiring { return; }
      if state.handoff.Some? {
        var h := state.handoff.value;
        if Drops(cfg, state, h) {
          state := state.(handoff := None);
          Store();
        } else {
          BeginHandoff(Coalesced(h));
        }
        return;
      }
      var n := FindQueued();
      if n == |state.submissions| || !saved { return; }
      Start(n, rendered);
    }

    method Start(n: nat, rendered: string)
      requires n < |state.submissions|
      modifies this
      ensures View() == StartSubmission(old(View()), n, rendered)
    {
      hide StartText, Connect, Settle;
      var q := state.submissions[n];
      var text := StartText(state, q, rendered);
      var started := q.(status := StepSubmission(q.status, Begin, true), harnessPrompt := Some(text));
      state := state.(submissions := state.submissions[n := started], phase := PhaseRunning, continuation := None);
      run := Some(AgentMachine.Run(q.id, q.attempt, text, true, RunConnecting));
      active := Connect(active, q.id);
      Store();
    }

    /** performHandoff, up to its first await */
    method BeginHandoff(h: Handoff)
      modifies this
      ensures View() == StartMove(old(View()), h)
    {
      hide Settle, Connect;
      var original := if h.stage.HandoffQueued? then state.harness else h.source;
      var stage := if h.stage.HandoffPrepared? then HasText(h.stage.text)
                   else if state.messages == [] then HasText("")
                   else NeedsSummary;
      state := state.(handoff := Some(h), phase := PhaseRunning);
      move := Some(Move(stage, h.(source := original), original));
      if stage.NeedsSummary? { active := Connect(active, h.operation); }
      Store();
    }

    /** The whole of drain: dropping a handoff drains again, and then something may start. */
    method DrainAll(rendered: string, saved: bool)
      modifies this
      ensures var d := Drained(cfg, old(View()), rendered, saved);
        View() == if old(CanDrain(View()) && state.handoff.Some? && Drops(cfg, state, state.handoff.value))
                  then Drained(cfg, d, rendered, saved) else d
    {
      hide Drained;
      var again := !Busy(state) && !retiring && state.handoff.Some? && Drops(cfg, state, state.handoff.value);
      DrainOnce(rendered, saved);
      if again { DrainOnce(rendered, saved); }
    }

    // ---- the run of one submission ----

    /** Mutates the run's own submission object, which may no longer be in the queue. */
    method MutateRun(f: Submission -> Submission)
      requires run.Some?
      modifies this`state
      ensures state == old(state).(submissions :=
        if run.value.linked then UpdateSubmission(old(state).submissions, run.value.id, f) else old(state).submissions)
    {
      if run.value.linked {
        var n := IndexOfSubmission(state.submissions, run.value.id);
        if n < |state.submissions| {
          state := state.(submissions := state.submissions[n := f(state.submissions[n])]);
        }
      }
    }

    method BindHarness(session: string)
      modifies this`state, this`disk
      ensures View() == SetHarness(cfg, old(View()), session)
    {
      state := state.(harness := Some(Harness(HarnessId(cfg, state), Some(session))));
      Store();
    }

    /** run, once connect has answered */
    method OnConnected(session: string)
      modifies this
      ensures View() == RunConnected(cfg, old(View()), session)
    {
      hide Save, SetHarness, StepTurn, HarnessId, UpdateSubmission;
      if run.None? || run.value.stage != RunConnecting || active.None? { return; }
      var r := run.value;
      var name := HarnessId(cfg, state);
      var turn := StepTurn(active.value.turn, Ready);
      if active.value.turn.Starting? { BindHarness(session); }
      active := Some(Active(turn, r.id, r.attempt, active.value.summary));
      if turn.TurnIdle? {
        // cancelled while connecting: no model request is made
        MutateRun(Failer());
        state := state.(phase := PhaseIdle);
        run := None;
        Store();
      } else {
        run := Some(r.(stage := RunPrompting));
        sent := sent + [Dispatch(r.attempt.GetOr(r.id), r.text, name)];
      }
    }

    /** run, once the harness has answered */
    method OnFinished(outcome: Outcome)
      modifies this
      ensures View() == RunFinished(old(View()), outcome)
    {
      hide UpdateSubmission, Save, StepTurn, FinalizeOwner, Finisher, Counter;
      if run.None? || run.value.stage != RunPrompting || active.None? { return; }
      var r := run.value;
      if outcome.OutcomeCompleted? {
        var finalized := FinalizeLoop(state.messages, r.id, Counter(r.attempt));
        state := state.(messages := finalized);
      }
      MutateRun(Finisher(outcome));
      state := state.(phase := PhaseIdle);
      active := Some(active.value.(turn := StepTurn(active.value.turn, Finished)));
      run := None;
      Store();
    }

    /** run's catch, up to its await */
    method OnFailed()
      modifies this
      ensures View() == RunFailed(old(View()))
    {
      hide UpdateSubmission;
      if run.None? { return; }
      MutateRun(Failer());
      state := state.(phase := PhaseFailed);
      active, retiring, run := None, true, None;
    }

    // ---- user and harness events ----

    method FindRunning() returns (n: nat)
      ensures n == FirstRunning(state.submissions)
    {
      n := 0;
      while n < |state.submissions| && state.submissions[n].status != Running
        invariant 0 <= n <= |state.submissions|
        invariant forall j :: 0 <= j < n ==> state.submissions[j].status != Running
      {
        n := n + 1;
      }
    }

    method CancelTurn()
      modifies this
      ensures View() == Cancelling(old(View()))
    {
      hide StepTurn, Save;
      if active.None? || !(state.phase.PhaseRunning? || state.phase.PhasePermission?) { return; }
      active := Some(active.value.(turn := StepTurn(active.value.turn, Stop)));
      var n := FindRunning();
      if n < |state.submissions| {
        state := state.(submissions := state.submissions[n := state.submissions[n].(cancelled := true)]);
      }
      state := state.(phase := PhaseRunning);
      Store();
    }

    method ApplyText(u: Update<MessageId>)
      modifies this`state
      ensures state == old(state).(messages := ApplyUpdate(old(state).messages, u))
    {
      hide Written, Used;
      var messages := state.messages;
      var n := FindMessage(messages, u.id);
      if n == |messages| { messages := messages + [Message(u.id, u.owner, false, "", false)]; }
      assert messages == Opened(state.messages, u) && n == IndexOf(messages, u.id);
      if !messages[n].complete {
        var used := UsedBytes(messages);
        messages := messages[n := messages[n].(text := Written(messages[n].text, used, u.text, u.replace))];
      }
      state := state.(messages := messages);
    }

    /** applyUpdate for message events, behind receive's guards */
    method ReceiveText(name: Option<string>, text: string, replace: bool)
      modifies this
      ensures View() == Receiving(old(View()), name, text, replace)
    {
      hide ApplyUpdate, TextUpdate, Save;
      if active.None? || active.value.summary || active.value.turn.Starting? { return; }
      ApplyText(TextUpdate(active.value, name, text, replace));
      Store();
    }

    method RequestPermission(request: string)
      modifies this
      ensures View() == Asking(old(View()), request)
    {
      hide Save;
      if active.None? || active.value.turn.Starting? || AgentTurn.Cancelled(active.value.turn) { return; }
      state := state.(phase := PhasePermission(request));
      Store();
    }

    method GivePermission(request: string)
      modifies this
      ensures View() == Answering(old(View()), request)
    {
      hide Save;
      if active.None? || state.phase != PhasePermission(request) { return; }
      state := state.(phase := PhaseRunning);
      Store();
    }

    /** saveComment: a comment that is queued or was sent stays as it is. */
    method KeepComment(id: Id, body: string, quote: string)
      modifies this
      ensures View() == Commenting(old(View()), id, body, quote)
    {
      hide Save;
      if HasComment(state.submissions, id) { return; }
      var n := IndexOfComment(state.comments, id);
      if n < |state.comments| {
        if state.comments[n].sent { return; }
        state := state.(comments := state.comments[n := Comment(id, body, quote, false)]);
      } else {
        if |state.comments| >= COMMENT_LIMIT { return; }
        state := state.(comments := state.comments + [Comment(id, body, quote, false)]);
      }
      Store();
    }

    /** switchHarness, up to its drain */
    method SwitchTo(target: string)
      modifies this
      ensures View() == Switched(cfg, old(View()), target)
    {
      hide Save, Available, HarnessId;
      if target !in cfg.adapters || target !in cfg.durable { return; }
      if state.handoff.Some? && (!state.handoff.value.stage.HandoffQueued? || state.phase.PhaseRunning?) {
        state := state.(handoff := Some(state.handoff.value.(requested := Some(target))));
      } else if !Available(cfg, state) {
        return;
      } else if HarnessId(cfg, state) == target {
        state := state.(handoff := None);
      } else {
        state := state.(handoff := Some(Handoff(target, None, Uuid(next), state.harness, HandoffQueued, None)));
        next := next + 1;
      }
      Store();
    }

    // ---- the later steps of performHandoff ----

    method ConnectSource(session: string)
      modifies this
      ensures View() == Moved(cfg, old(View()), MoveStep.ConnectSource(session))
    {
      hide Save, SetHarness, StepTurn;
      if move.None? || !move.value.stage.NeedsSummary? || active.None? { return; }
      if active.value.turn.Starting? { BindHarness(session); }
      active := Some(active.value.(turn := StepTurn(active.value.turn, Ready)));
      move := Some(move.value.(stage := SourceReady));
    }

    /** The harness that must be summarized is connected: ask it, and freeze what it is asked. */
    method AskForSummary(rendered: string)
      modifies this
      ensures View() == Moved(cfg, old(View()), AskSummary(rendered))
    {
      hide Save, HarnessId;
      if move.None? || !move.value.stage.SourceReady? || active.None? { return; }
      var v := move.value;
      var name := HarnessId(cfg, state);
      var prompt := v.intent.prompt.GetOr(rendered);
      var requested := if state.handoff.Some? then state.handoff.value.requested else None;
      state := state.(handoff := Some(v.intent.(requested := requested, stage := HandoffSummarizing, prompt := Some(prompt))));
      active := Some(active.value.(turnId := v.intent.operation, attempt := None, summary := true));
      move := Some(v.(stage := Summarizing));
      sent := sent + [Dispatch(v.intent.operation, prompt, name)];
      Store();
    }

    method TakeSummary(text: string)
      modifies this
      ensures View() == Moved(cfg, old(View()), MoveStep.TakeSummary(text))
    {
      if move.None? || !move.value.stage.Summarizing? || Trim(text) == "" { return; }
      move := Some(move.value.(stage := HasText(Trim(text))));
    }

    /** The handoff text is known: make it durable, then close the old connection. */
    method PrepareHandoff()
      modifies this
      ensures View() == Moved(cfg, old(View()), Prepare)
    {
      hide Settle;
      if move.None? || !move.value.stage.HasText? { return; }
      var v := move.value;
      var text := v.stage.text;
      var session := if state.harness.Some? then state.harness.value.session else None;
      var requested := if state.handoff.Some? then state.handoff.value.requested else None;
      state := state.(handoff := Some(v.intent.(requested := requested, stage := HandoffPrepared(text))));
      move := Some(v.(stage := Retiring(text, session)));
      Store();
      active, retiring := None, true;
    }

    /** The old connection is closed: from here on the Thread belongs to the target. */
    method Retarget()
      modifies this
      ensures View() == Moved(cfg, old(View()), MoveStep.Retarget)
    {
      hide Connect;
      if move.None? || !move.value.stage.Retiring? || retiring { return; }
      var v := move.value;
      state := state.(harness := Some(Harness(v.intent.target, v.stage.session)));
      active := Connect(active, v.intent.operation);
      move := Some(v.(stage := Retargeted(v.stage.text)));
    }

    method ConnectTarget(session: string)
      modifies this
      ensures View() == Moved(cfg, old(View()), MoveStep.ConnectTarget(session))
    {
      hide Save, StepTurn;
      if move.None? || !move.value.stage.Retargeted? || active.None? { return; }
      active := Some(active.value.(turn := StepTurn(active.value.turn, Ready)));
      move := Some(move.value.(stage := TargetReady(move.value.stage.text)));
      BindHarness(session);
    }

    method CompleteHandoff()
      modifies this
      ensures View() == Moved(cfg, old(View()), MoveStep.Complete)
    {
      hide Arrived;
      if move.None? || !move.value.stage.TargetReady? || active.None? { return; }
      Arrive(move.value, move.value.stage.text);
    }

    method Arrive(v: Move, text: string)
      requires active.Some?
      modifies this
      ensures View() == Arrived(old(View()), v, text)
    {
      hide Save, StepTurn;
      var requested := if state.handoff.Some? then state.handoff.value.requested else None;
      var again := requested.Some? && requested.value != v.intent.target;
      active := Some(active.value.(turn := StepTurn(active.value.turn, Finished)));
      state := state.(continuation := if text == "" then None else Some(text),
                      handoff := if again then Some(Handoff(requested.value, None, Uuid(next), state.harness, HandoffQueued, None))
                                 else None,
                      phase := PhaseIdle);
      next := next + 1;
      move := None;
      Store();
    }

    /** performHandoff's catch, up to its await */
    method FailHandoff()
      modifies this
      ensures View() == Moved(cfg, old(View()), MoveStep.FailMove)
    {
      if move.None? || move.value.stage.Failing? || move.value.stage.Retiring? { return; }
      move := Some(move.value.(stage := Failing));
      active, retiring := None, true;
    }

    /** performHandoff's catch, after its await */
    method RestoreHarness()
      modifies this
      ensures View() == Moved(cfg, old(View()), Restore)
    {
      hide Save;
      if move.None? || !move.value.stage.Failing? || retiring { return; }
      state := state.(harness := move.value.original, handoff := None, phase := PhaseFailed);
      move := None;
      Store();
    }

    // ---- whatever happens ----

    method ConnectionClosed()
      modifies this
      ensures View() == Step(cfg, old(View()), Retired)
    {
      retiring := false;
    }

    method MoveForward(step: MoveStep)
      modifies this
      ensures View() == Moved(cfg, old(View()), step)
    {
      hide Moved;
      match step
      case ConnectSource(session) => ConnectSource(session);
      case AskSummary(rendered) => AskForSummary(rendered);
      case TakeSummary(text) => TakeSummary(text);
      case Prepare => PrepareHandoff();
      case Retarget => Retarget();
      case ConnectTarget(session) => ConnectTarget(session);
      case Complete => CompleteHandoff();
      case FailMove => FailHandoff();
      case Restore => RestoreHarness();
    }

    method Handle(e: Event)
      modifies this
      ensures View() == Step(cfg, old(View()), e)
    {
      hide Prompted, Drained, RunConnected, RunFinished, RunFailed, Cancelling, Asking, Answering, Receiving, Commenting,
        Switched, Moved, CrashAndReload, Save;
      match e
      case AcceptPrompt(p, review, saved) => var _ := Prompt(p, review, saved);
      case Drain(rendered, saved) => DrainOnce(rendered, saved);
      case Connected(session) => OnConnected(session);
      case Finish(outcome) => OnFinished(outcome);
      case RunFail => OnFailed();
      case Retired => ConnectionClosed();
      case Flush => Store();
      case Cancel => CancelTurn();
      case AskPermission(request) => RequestPermission(request);
      case AnswerPermission(request) => GivePermission(request);
      case TextEvent(name, text, replace) => ReceiveText(name, text, replace);
      case SaveComment(id, body, quote) => KeepComment(id, body, quote);
      case SwitchHarness(target) => SwitchTo(target);
      case MoveOn(step) => MoveForward(step);
      case Crash => Recover();
    }

    /** Whatever happens to this object, in any order, crashes included: no accepted input, receipt, outcome or
        message is lost or changed, the file keeps up with the transcript, and unless a prompt is rolled back in
        flight what is marked running is what the run in flight will settle. */
    method Run(es: seq<Event>)
      requires AgentSafety.Sane(View()) && AgentLedger.LedgerOk(cfg, View()) && AgentHistory.Saved(View())
      modifies this
      ensures View() == Steps(cfg, old(View()), es)
      ensures AgentSafety.Sane(View()) && AgentLedger.LedgerOk(cfg, View())
      ensures Extends(old(state).receipts, state.receipts)
      ensures AgentLedger.InputsKept(old(state).submissions, state.submissions)
      ensures AgentHistory.Later(old(state).messages, state.messages) && disk.messages == state.messages
      ensures AgentTheorems.OneRunning(old(View())) && AgentTheorems.NeverRollsBackInFlight(cfg, old(View()), es) ==>
        AgentTheorems.OneRunning(View())
    {
      hide AgentSafety.Sane, AgentLedger.LedgerOk, AgentTheorems.OneRunning, AgentHistory.Later, AgentLedger.InputsKept, Extends,
        Step, AgentTheorems.NeverRollsBackInFlight;
      ghost var start := View();
      AgentLedger.RunsKeepLedger(cfg, start, es);
      AgentHistory.MessagesAreForEver(cfg, start, es);
      if AgentTheorems.OneRunning(start) && AgentTheorems.NeverRollsBackInFlight(cfg, start, es) {
        AgentTheorems.RunsHaveOneRunning(cfg, start, es);
      }
      var i := 0;
      while i < |es|
        invariant 0 <= i <= |es|
        invariant Steps(cfg, start, es) == Steps(cfg, View(), es[i..])
      {
        assert es[i..][0] == es[i] && es[i..][1..] == es[i + 1..];
        Handle(es[i]);
        i := i + 1;
      }
      assert es[i..] == [];
    }
  }
}
