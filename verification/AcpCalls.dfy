/**
 * The prompt call and the progress log (packages/adapters/src/durable-acp-task.ts): when a call starts a task, repeats
 * one or is refused, when it returns, what cancelling it does, and which events are logged and shown.
 */
module AcpCalls {
  import opened Common
  import opened AcpDispatch
  import opened AcpTheorems

  // ---- calling ----

  predicate HasRequest(m: Machine, k: nat, request: Id) {
    k < |m.tasks| && m.tasks[k].request == request
  }

  predicate SomeOpen(m: Machine) {
    exists k :: 0 <= k < |m.tasks| && !m.tasks[k].status.Terminal?
  }

  lemma OpenIsActive(recovery: bool, m: Machine)
    requires Sound(recovery, m)
    ensures SomeOpen(m) <==> m.active.Some? && Open(m, m.active.value)
  {
    hide TaskOk, WorkerOk, OperationsOk, CallsOk;
    if SomeOpen(m) {
      var k :| 0 <= k < |m.tasks| && !m.tasks[k].status.Terminal?;
      assert m.active == Some(k);
    }
  }

  lemma RequestIsKnown(m: Machine, request: Id)
    requires OperationsOk(m)
    ensures request in m.operations <==> exists k: nat :: HasRequest(m, k, request)
    ensures forall k: nat :: HasRequest(m, k, request) ==> m.operations[request] == Operation(m.tasks[k].text, k)
  {
    if request in m.operations { assert HasRequest(m, m.operations[request].task, request); }
    forall k: nat | HasRequest(m, k, request) ensures request in m.operations && m.operations[request] == Operation(m.tasks[k].text, k) {
      assert m.operations[m.tasks[k].request].task == k;
    }
  }

  /** One call at a time. A request that has a task repeats it if the text is the same and conflicts if it is not; a
      new one starts a task of its own unless another is still open. Refusals change nothing. */
  lemma RepliesExactly(recovery: bool, m: Machine, request: Id, text: string)
    requires Sound(recovery, m)
    ensures var (t, reply) := PromptTask(m, request, text);
      var repeats := exists k: nat :: HasRequest(m, k, request);
      && (reply.Occupied? <==> m.pending.Some? || (!repeats && SomeOpen(m)))
      && (reply.Conflict? <==> m.pending.None? && exists k: nat :: HasRequest(m, k, request) && m.tasks[k].text != text)
      && (reply.Replaying? <==> m.pending.None? && exists k: nat :: HasRequest(m, k, request) && m.tasks[k].text == text)
      && (reply.Started? <==> m.pending.None? && !repeats && !SomeOpen(m))
      && (reply.Occupied? || reply.Conflict? ==> t == m)
      && (reply.Replaying? ==> t == m.(pending := t.pending) && exists k: nat :: HasRequest(m, k, request) && t.pending == Some(Pending(k, false, false, true)))
      && (reply.Started? ==>
            && t.tasks == m.tasks + [NewTask(request, text)] && t.pending == Some(Pending(|m.tasks|, false, false, false))
            && t.active == Some(|m.tasks|) && t.worker == m.worker && t.calls == m.calls && t.aborting == m.aborting)
  {
    OpenIsActive(recovery, m);
    RequestIsKnown(m, request);
    hide TaskOk, WorkerOk, OperationsOk, CallsOk, SomeOpen;
    if request in m.operations {
      var k: nat :| HasRequest(m, k, request);
      assert m.operations[request] == Operation(m.tasks[k].text, k);
    }
  }

  predicate Over(m: Machine) {
    m.pending.Some? && m.pending.value.known && m.pending.value.task < |m.tasks| && m.tasks[m.pending.value.task].status.Terminal?
  }

  predicate Repeats(m: Machine, k: nat) {
    Over(m) && m.pending.value.task == k && m.pending.value.replay
  }

  lemma OthersReplay(recovery: bool, m: Machine, e: Event, k: nat)
    requires k < |m.tasks| && e != Return
    ensures var t := Step(recovery, m, e); k < |t.tasks| && t.tasks[k].replays == m.tasks[k].replays
  {
  }

  lemma ReturnReplays(m: Machine, k: nat)
    requires k < |m.tasks|
    ensures var t := Returned(m);
      k < |t.tasks| && t.tasks[k].replays == m.tasks[k].replays + if Repeats(m, k) then 1 else 0
  {
  }

  lemma OthersWait(recovery: bool, m: Machine, e: Event)
    requires m.pending.Some? && e != Return && e != Crash
    ensures Step(recovery, m, e).pending.Some?
  {
  }

  /** The call returns exactly when its task is known to it and over; a repeat has then published the log once more. */
  lemma ReturnsExactly(recovery: bool, m: Machine, e: Event)
    requires Sound(recovery, m) && m.pending.Some?
    ensures var t := Step(recovery, m, e);
      && (t.pending.None? <==> e == Crash || (e == Return && Over(m)))
      && forall k :: 0 <= k < |m.tasks| ==>
           k < |t.tasks| && t.tasks[k].replays == m.tasks[k].replays + if e == Return && Repeats(m, k) then 1 else 0
  {
    var t := Step(recovery, m, e);
    forall k | 0 <= k < |m.tasks|
      ensures k < |t.tasks| && t.tasks[k].replays == m.tasks[k].replays + if e == Return && Repeats(m, k) then 1 else 0
    {
      hide Repeats, Over, Sound;
      if e == Return { ReturnReplays(m, k); hide Returned; } else { OthersReplay(recovery, m, e, k); hide Step; }
    }
    hide TaskOk, WorkerOk, OperationsOk, CallsOk, Repeats;
    if e != Return && e != Crash { OthersWait(recovery, m, e); hide Step; }
  }

  // ---- cancelling ----

  /** A prompt that is cancelled before its task reached the harness never gets there while the daemon lives, though
      the cancellation came before the task had a name; and the task can be aborted from then on. */
  lemma CancelledPromptIsNeverTold(recovery: bool, m: Machine, es: seq<Event>)
    requires Sound(recovery, m) && m.pending.Some? && m.pending.value.task !in m.calls && Crash !in es
    ensures var k, t := m.pending.value.task, Step(recovery, Step(recovery, m, CancelPrompt), Assign);
      && k !in Steps(recovery, t, es).calls
      && (!m.pending.value.known ==>
            && k in t.aborting
            && (!m.tasks[k].status.Terminal? ==> Step(recovery, t, Abort(k)).tasks[k].status == Terminal(Aborted)))
  {
    var c := Step(recovery, m, CancelPrompt);
    var t := Step(recovery, c, Assign);
    assert c == m.(pending := Some(m.pending.value.(cancelled := true)));
    assert CancelStands(t, m.pending.value.task);
    hide Sound, Step;
    AcpDispatch.StepIsSound(recovery, m, CancelPrompt);
    AcpDispatch.StepIsSound(recovery, c, Assign);
    CancelledIsNeverTold(recovery, t, es, m.pending.value.task);
  }

  /** A call that is cancelled later, and an interruption by somebody else, stop the task wherever it is. */
  lemma InterruptedIsAborted(recovery: bool, m: Machine, k: nat)
    requires k < |m.tasks| && !m.tasks[k].status.Terminal?
    ensures Step(recovery, Step(recovery, m, Interrupt(k)), Abort(k)).tasks[k].status == Terminal(Aborted)
  {
  }

  // ---- logging ----

  /** The commit under way is this event's. */
  predicate Commits(m: Machine, e: Event, k: nat) {
    e == CommitHead && m.worker.Some? && m.worker.value.task == k && m.worker.value.chain != [] && m.worker.value.unpublished.None?
  }

  predicate Publishes(m: Machine, e: Event, k: nat) {
    e == Publish && m.worker.Some? && m.worker.value.task == k && m.worker.value.unpublished.Some?
  }

  lemma QuietLogs(recovery: bool, m: Machine, e: Event, k: nat)
    requires k < |m.tasks| && e != CommitHead && e != Publish
    ensures var t := Step(recovery, m, e); k < |t.tasks| && t.tasks[k].log == m.tasks[k].log && t.tasks[k].shown == m.tasks[k].shown
  {
  }

  lemma CommitLogs(recovery: bool, m: Machine, k: nat)
    requires k < |m.tasks| && m.tasks[k].bytes == Size(m.tasks[k].log)
    ensures var t := HeadCommitted(m);
      && k < |t.tasks| && t.tasks[k].shown == m.tasks[k].shown
      && t.tasks[k].log == m.tasks[k].log
           + (if Commits(m, CommitHead, k) && Size(m.tasks[k].log) + m.worker.value.chain[0].size <= 8_388_608 then [m.worker.value.chain[0]] else [])
  {
    hide Size;
    var a := m.tasks[k];
    assert a.log + [] == a.log;
  }

  lemma PublishShows(recovery: bool, m: Machine, k: nat)
    requires k < |m.tasks|
    ensures var t := Published(m);
      && k < |t.tasks| && t.tasks[k].log == m.tasks[k].log
      && t.tasks[k].shown == m.tasks[k].shown + (if Publishes(m, Publish, k) then [m.worker.value.unpublished.value] else [])
  {
    var a := m.tasks[k];
    assert a.shown + [] == a.shown;
  }

  /** Every step: a task's log grows only by the commit of the next event its worker heard, exactly when the log with it
      is no longer than 8,388,608 bytes; what is shown grows only by the event that was logged last. */
  lemma LogsExactly(recovery: bool, m: Machine, e: Event, k: nat)
    requires Sound(recovery, m) && k < |m.tasks|
    ensures var t := Step(recovery, m, e);
      && k < |t.tasks|
      && t.tasks[k].log == m.tasks[k].log
           + (if Commits(m, e, k) && Size(m.tasks[k].log) + m.worker.value.chain[0].size <= 8_388_608 then [m.worker.value.chain[0]] else [])
      && t.tasks[k].shown == m.tasks[k].shown + (if Publishes(m, e, k) then [m.worker.value.unpublished.value] else [])
  {
    assert TaskOk(recovery, m.tasks[k]);
    var a := m.tasks[k];
    assert a.log + [] == a.log && a.shown + [] == a.shown;
    hide Sound, TaskOk, Size, HeadCommitted, Published;
    if e == CommitHead {
      CommitLogs(recovery, m, k);
    } else if e == Publish {
      PublishShows(recovery, m, k);
    } else {
      QuietLogs(recovery, m, e, k);
      hide Step;
    }
  }

  /** A worker that cannot log an event has failed, and goes on with the next. */
  lemma CommitsExactly(recovery: bool, m: Machine, k: nat)
    requires Sound(recovery, m) && Commits(m, CommitHead, k)
    ensures var w, t := m.worker.value, Step(recovery, m, CommitHead);
      && t.worker.Some? && t.worker.value.chain == w.chain[1..] && t.worker.value.stage == w.stage && t.worker.value.task == k
      && (if Size(m.tasks[k].log) + w.chain[0].size <= 8_388_608
          then t.worker.value.unpublished == Some(w.chain[0]) && t.worker.value.failed == w.failed && t.worker.value.resolved == w.resolved
          else t.worker.value.unpublished.None? && t.worker.value.failed && t.worker.value.resolved == w.resolved + 1)
  {
    assert TaskOk(recovery, m.tasks[k]);
    hide OperationsOk, CallsOk, WorkerOk, Size;
  }

  /** What a worker hears while it listens joins the end of its chain of commits. */
  lemma HeardIsChained(recovery: bool, m: Machine, e: Logged)
    requires Sound(recovery, m) && m.worker.Some?
    ensures var w, t := m.worker.value, Step(recovery, m, Emit(e));
      && t.worker.Some?
      && (if w.stage.Prompting? || w.stage.Resuming? || w.stage.Answered?
          then t.worker.value == w.(chain := w.chain + [e]) else t == m)
  {
    hide OperationsOk, CallsOk, TaskOk, WorkerOk;
  }

  // ---- the phases ----

  /** A free engine that is given an open task connects to tell it, or, for a task it has told before, reattaches if
      the harness can; nothing else starts a phase. */
  lemma PhasesStart(recovery: bool, m: Machine, e: Event)
    requires Sound(recovery, m) && m.worker.None?
    ensures var t := Step(recovery, m, e);
      if e.Work? && e.task < |m.tasks| && m.tasks[e.task].status.Queued? then t.worker == Some(Worker(e.task, Connecting, [], 0, None, false))
      else if e.Work? && e.task < |m.tasks| && m.tasks[e.task].status.Dispatched? && recovery
      then t.worker == Some(Worker(e.task, Resuming, [], 0, None, false))
      else t.worker.None?
  {
    hide OperationsOk, CallsOk, TaskOk, WorkerOk;
  }

  /** A task is told to the harness by the call of a phase that has its checkpoint, unless it was aborted or its prompt
      cancelled meanwhile; and by nothing else. */
  lemma ToldExactly(recovery: bool, m: Machine, e: Event)
    requires Sound(recovery, m)
    ensures var t := Step(recovery, m, e);
      if e == Call && m.worker.Some? && m.worker.value.stage.Committed? && m.worker.value.task !in m.aborting
         && !(m.pending.Some? && m.pending.value.known && m.pending.value.task == m.worker.value.task && m.pending.value.cancelled)
      then t.calls == m.calls + [m.worker.value.task] && t.worker == Some(m.worker.value.(stage := Prompting))
      else t.calls == m.calls
  {
    hide OperationsOk, CallsOk, TaskOk, WorkerOk;
  }

  /** A phase ends exactly by finding its task aborted or its prompt cancelled before the call, by the end of its
      commits, by throwing, by an abort, and by a crash. */
  lemma PhasesEnd(recovery: bool, m: Machine, e: Event)
    requires Sound(recovery, m) && m.worker.Some?
    ensures var w, t := m.worker.value, Step(recovery, m, e);
      t.worker.None? <==>
        || e in {Throw, Crash}
        || (e == Abort(w.task) && w.task in m.aborting)
        || (e == Dispatch && w.stage.Connecting? && w.task in m.aborting)
        || (e == Call && w.stage.Committed?
            && (w.task in m.aborting
                || (m.pending.Some? && m.pending.value.known && m.pending.value.task == w.task && m.pending.value.cancelled)))
        || (e == Settle && w.stage.Answered? && w.unpublished.None? && w.resolved >= w.stage.target)
  {
    hide OperationsOk, CallsOk, TaskOk;
  }

  /** A phase that goes on moves by its checkpoint, its call and the harness's answer, which waits for the commits begun
      by then; nothing else moves it. */
  lemma PhasesAdvance(recovery: bool, m: Machine, e: Event)
    requires Sound(recovery, m) && m.worker.Some? && Step(recovery, m, e).worker.Some?
    ensures var w, t := m.worker.value, Step(recovery, m, e).worker.value;
      && t.task == w.task
      && t.stage ==
           if e == Dispatch && w.stage.Connecting? then Committed
           else if e == Call && w.stage.Committed? then Prompting
           else if e == Answer && w.stage.Prompting? then Answered(w.resolved + |w.chain| + |Unpublished(w)|, false)
           else if e == Answer && w.stage.Resuming? then Answered(w.resolved + |w.chain| + |Unpublished(w)|, true)
           else w.stage
  {
    hide OperationsOk, CallsOk, TaskOk, WorkerOk;
  }

  /** A crash forgets the call, the interruptions and the phase; the tasks stay as they are. */
  lemma CrashForgets(recovery: bool, m: Machine)
    ensures var t := Step(recovery, m, Crash);
      t.pending.None? && t.worker.None? && t.aborting == {} && t.tasks == m.tasks && t.operations == m.operations && t.calls == m.calls
  {
  }
}
