/**
 * `createDurableAcpTask` (packages/adapters/src/durable-acp-task.ts): its documents and closure variables,
 * changed in place. Every method takes the machine's step, and `Run` carries what is proved of the machine's
 * runs over to this object: whatever happens to it, in whatever order.
 */
module DurableAcp {
  import opened Common
  import opened AcpDispatch
  import AcpOutcomes
  import AcpTheorems

  class DurableAcpTask {
    const recovery: bool

    // documents
    var operations: map<Id, Operation>
    var active: Option<nat>
    var tasks: seq<Task>

    // closure variables and suspended computations
    var pending: Option<Pending>
    var aborting: set<nat>
    var worker: Option<Worker>

    /** Every call of backend.prompt, by task. */
    var calls: seq<nat>

    ghost function View(): Machine
      reads this
    {
      Machine(operations, active, tasks, pending, aborting, worker, calls)
    }

    constructor (recovery: bool)
      ensures View() == START && this.recovery == recovery
    {
      this.recovery := recovery;
      operations, active, tasks, pending, aborting, worker, calls := map[], None, [], None, {}, None, [];
    }

    /** prompt, up to the return of its commit */
    method Prompt(request: Id, text: string) returns (reply: Reply)
      modifies this
      ensures (View(), reply) == PromptTask(old(View()), request, text)
      ensures reply == Conflict <==> old(pending.None?) && request in old(operations) && old(operations)[request].text != text
      ensures reply == Started ==> request !in old(operations) && |tasks| == |old(tasks)| + 1
      ensures reply == Started || reply == Replaying ==> request in operations && operations[request].text == text
      ensures reply != Started ==> operations == old(operations) && tasks == old(tasks)
    {
      if pending.Some? { return Occupied; }
      if request in operations {
        var existing := operations[request];
        if existing.text != text { return Conflict; }
        pending := Some(Pending(existing.task, false, false, true));
        return Replaying;
      }
      if active.Some? && active.value < |tasks| && !tasks[active.value].status.Terminal? { return Occupied; }
      var id := |tasks|;
      tasks := tasks + [NewTask(request, text)];
      operations := operations[request := Operation(text, id)];
      active := Some(id);
      pending := Some(Pending(id, false, false, false));
      reply := Started;
    }

    /** The rest of prompt: remember the task, and abort it if the prompt was cancelled meanwhile. */
    method AssignTask()
      modifies this
      ensures View() == Assigned(old(View()))
    {
      if pending.None? || pending.value.known { return; }
      pending := Some(pending.value.(known := true));
      if pending.value.cancelled { aborting := aborting + {pending.value.task}; }
    }

    method Cancel()
      modifies this
      ensures View() == Cancelled(old(View()))
    {
      if pending.Some? { pending := Some(pending.value.(cancelled := true)); }
    }

    /** waitForTask has returned: replay if this was a repeat, and forget the pending prompt. */
    method FinishPrompt() returns (outcome: Option<Outcome>, replayed: seq<Logged>)
      modifies this
      ensures View() == Returned(old(View()))
      ensures outcome.Some? <==> old(pending).Some? && pending.None?
      ensures outcome.Some? ==> tasks[old(pending).value.task].status == Terminal(outcome.value)
      ensures replayed == if outcome.Some? && old(pending).value.replay then tasks[old(pending).value.task].log else []
    {
      outcome, replayed := None, [];
      if pending.None? || !pending.value.known || pending.value.task >= |tasks| { return; }
      var k := pending.value.task;
      var t := tasks[k];
      if !t.status.Terminal? { return; }
      if pending.value.replay {
        replayed := t.log;
        t := t.(replays := t.replays + 1);
      }
      tasks := tasks[k := t];
      outcome := Some(t.status.outcome);
      pending := None;
    }

    method SetTaskStatus(k: nat, status: Status)
      requires k < |tasks|
      modifies this`tasks
      ensures tasks == SetStatus(old(View()), k, status).tasks
    {
      tasks := tasks[k := tasks[k].(status := status)];
    }

    /** A phase picks up a task that is not terminal. */
    method PickUp(k: nat)
      modifies this
      ensures View() == Worked(recovery, old(View()), k)
    {
      if worker.Some? || k >= |tasks| || tasks[k].status.Terminal? { return; }
      if tasks[k].status.Queued? {
        worker := Some(Worker(k, Connecting, [], 0, None, false));
      } else if recovery {
        tasks := tasks[k := tasks[k].(emitted := tasks[k].log, due := 0)];
        worker := Some(Worker(k, Resuming, [], 0, None, false));
      } else {
        SetTaskStatus(k, Terminal(Failed));
      }
    }

    /** The harness is connected: commit the dispatch checkpoint, unless the task was aborted. */
    method CommitDispatch()
      modifies this
      ensures View() == DispatchedTask(old(View()))
    {
      if worker.None? || !worker.value.stage.Connecting? || worker.value.task >= |tasks| { return; }
      var k := worker.value.task;
      if k in aborting {
        worker := None;
      } else {
        SetTaskStatus(k, Dispatched);
        worker := Some(worker.value.(stage := Committed));
      }
    }

    /** The last checks, and backend.prompt. */
    method CallHarness()
      modifies this
      ensures View() == Called(old(View()))
      ensures calls == old(calls) || (old(worker).Some? && old(worker).value.stage.Committed? && calls == old(calls) + [old(worker).value.task])
    {
      if worker.None? || !worker.value.stage.Committed? || worker.value.task >= |tasks| { return; }
      var k := worker.value.task;
      if k in aborting { worker := None; return; }
      if pending.Some? && pending.value.known && pending.value.task == k && pending.value.cancelled {
        SetTaskStatus(k, Terminal(Aborted));
        worker := None;
        return;
      }
      worker := Some(worker.value.(stage := Prompting));
      calls := calls + [k];
    }

    /** commitEvent: one more link in the chain */
    method OnEvent(e: Logged)
      modifies this
      ensures View() == Emitted(old(View()), e)
    {
      if worker.None? || !Listening(worker.value) || worker.value.task >= |tasks| { return; }
      var k := worker.value.task;
      worker := Some(worker.value.(chain := worker.value.chain + [e]));
      tasks := tasks[k := tasks[k].(emitted := tasks[k].emitted + [e])];
    }

    /** The commit of the next link: the document gains the event, or the link fails. */
    method CommitEvent()
      modifies this
      ensures View() == HeadCommitted(old(View()))
    {
      if worker.None? || worker.value.chain == [] || worker.value.unpublished.Some? || worker.value.task >= |tasks| { return; }
      var k, e := worker.value.task, worker.value.chain[0];
      var t := tasks[k];
      worker := Some(worker.value.(chain := worker.value.chain[1..]));
      if t.bytes + e.size > PROGRESS_LIMIT {
        worker := Some(worker.value.(resolved := worker.value.resolved + 1, failed := true));
      } else {
        worker := Some(worker.value.(unpublished := Some(e)));
        tasks := tasks[k := t.(log := t.log + [e], bytes := t.bytes + e.size)];
      }
    }

    method PublishEvent()
      modifies this
      ensures View() == Published(old(View()))
    {
      if worker.None? || worker.value.unpublished.None? || worker.value.task >= |tasks| { return; }
      var k, e := worker.value.task, worker.value.unpublished.value;
      tasks := tasks[k := tasks[k].(shown := tasks[k].shown + [e])];
      worker := Some(worker.value.(unpublished := None, resolved := worker.value.resolved + 1));
    }

    /** backend.prompt or recovery.resume resolves */
    method OnAnswer()
      modifies this
      ensures View() == AnsweredTask(old(View()))
    {
      if worker.None? || !(worker.value.stage.Prompting? || worker.value.stage.Resuming?) || worker.value.task >= |tasks| { return; }
      var k := worker.value.task;
      tasks := tasks[k := tasks[k].(due := |tasks[k].emitted|)];
      worker := Some(worker.value.(stage := Answered(Added(worker.value), worker.value.stage.Resuming?)));
    }

    /** The awaited part of the chain is done: commit the outcome. */
    method CommitOutcome()
      modifies this
      ensures View() == Settled(old(View()))
    {
      if worker.None? || !worker.value.stage.Answered? || worker.value.task >= |tasks| { return; }
      var w := worker.value;
      if w.resolved < w.stage.target || w.unpublished.Some? { return; }
      if !w.failed {
        SetTaskStatus(w.task, Terminal(Completed));
      } else if w.stage.resumed {
        SetTaskStatus(w.task, Terminal(Failed));
      }
      worker := None;
    }

    method FailPhase()
      modifies this
      ensures View() == Thrown(old(View()))
    {
      if worker.None? || worker.value.task >= |tasks| { return; }
      var w := worker.value;
      if w.stage.Resuming? || (w.stage.Answered? && w.stage.resumed) {
        SetTaskStatus(w.task, Terminal(Failed));
      }
      worker := None;
    }

    method CommitAbort(k: nat)
      modifies this
      ensures View() == AbortedTask(old(View()), k)
    {
      if k !in aborting || k >= |tasks| || tasks[k].status.Terminal? { return; }
      SetTaskStatus(k, Terminal(Aborted));
      if worker.Some? && worker.value.task == k { worker := None; }
    }

    method Interrupt(k: nat)
      modifies this
      ensures View() == Step(recovery, old(View()), Event.Interrupt(k))
    {
      aborting := aborting + {k};
    }

    /** The engine gives up on a task. */
    method GiveUp(k: nat)
      modifies this
      ensures View() == GivenUp(old(View()), k)
    {
      if worker.Some? || k >= |tasks| || tasks[k].status.Terminal? { return; }
      SetTaskStatus(k, Terminal(Failed));
    }

    /** The daemon dies; the documents are what is left. */
    method Restart()
      modifies this
      ensures View() == Crashed(old(View()))
    {
      pending, aborting, worker := None, {}, None;
    }

    method Handle(e: Event)
      modifies this
      ensures View() == Step(recovery, old(View()), e)
    {
      hide PromptTask, Assigned, Cancelled, Returned, Worked, DispatchedTask, Called, Emitted, HeadCommitted,
        Published, AnsweredTask, Settled, Thrown, GivenUp, AbortedTask, Crashed;
      match e
      case Prompt(request, text) => var _ := Prompt(request, text);
      case Assign => AssignTask();
      case CancelPrompt => Cancel();
      case Interrupt(k) => Interrupt(k);
      case Work(k) => PickUp(k);
      case Dispatch => CommitDispatch();
      case Call => CallHarness();
      case Emit(l) => OnEvent(l);
      case CommitHead => CommitEvent();
      case Publish => PublishEvent();
      case Answer => OnAnswer();
      case Settle => CommitOutcome();
      case Throw => FailPhase();
      case GiveUp(k) => GiveUp(k);
      case Abort(k) => CommitAbort(k);
      case Return => var _, _ := FinishPrompt();
      case Crash => Restart();
    }

    /** Whatever happens, in any order, deaths of the daemon included: requests, logs and outcomes are never
        lost or changed, and from a new object on no request is told to the harness twice, or in other words
        than it was accepted in. */
    method Run(es: seq<Event>)
      requires Sound(recovery, View())
      modifies this
      ensures View() == Steps(recovery, old(View()), es)
      ensures Sound(recovery, View()) && AcpTheorems.Grows(old(View()), View())
      ensures old(View()) == START ==> AcpTheorems.OncePerRequest(View())
    {
      hide Step, Sound, AcpTheorems.Grows, AcpTheorems.OncePerRequest;
      ghost var start := View();
      AcpTheorems.RunsAreSound(recovery, start, es);
      AcpTheorems.RunsGrow(recovery, start, es);
      AcpTheorems.ToldAtMostOnce(recovery, es);
      var i := 0;
      while i < |es|
        invariant 0 <= i <= |es|
        invariant Steps(recovery, start, es) == Steps(recovery, View(), es[i..])
      {
        assert es[i..][0] == es[i] && es[i..][1..] == es[i + 1..];
        Handle(es[i]);
        i := i + 1;
      }
      assert es[i..] == [];
    }

    /** One prompt from end to end, when nothing goes wrong: the harness says these events and answers, and the
        prompt returns completed, with all of them logged and shown in order. */
    method Serve(request: Id, text: string, events: seq<Logged>) returns (outcome: Option<Outcome>)
      requires View() == START && Size(events) <= PROGRESS_LIMIT
      modifies this
      ensures outcome == Some(Completed)
      ensures AcpOutcomes.Answers(View(), events)
    {
      hide PromptTask, Assigned, Worked, DispatchedTask, Called, Emitted, HeadCommitted, Published, AnsweredTask, Settled,
        Returned, Size, AcpOutcomes.Talking, AcpOutcomes.Answers;
      AcpOutcomes.BeginTalks(request, text);
      var _ := Prompt(request, text);
      AssignTask();
      PickUp(0);
      CommitDispatch();
      CallHarness();
      var i := 0;
      while i < |events|
        invariant 0 <= i <= |events|
        invariant AcpOutcomes.Talking(View(), events[..i])
      {
        AcpOutcomes.EmitTalks(View(), events[..i], events[i]);
        assert events[..i + 1] == events[..i] + [events[i]];
        OnEvent(events[i]);
        i := i + 1;
      }
      assert events[..i] == events;
      AcpOutcomes.WorkerThere(View(), events);
      AcpOutcomes.PublishTalks(View(), events);
      PublishEvent();
      AcpOutcomes.WorkerThere(View(), events);
      while worker.value.chain != []
        invariant AcpOutcomes.Talking(View(), events) && worker.Some? && worker.value.unpublished.None?
        decreases |worker.value.chain|
      {
        AcpOutcomes.CommitTalks(View(), events);
        CommitEvent();
        AcpOutcomes.WorkerThere(View(), events);
        AcpOutcomes.PublishTalks(View(), events);
        PublishEvent();
        AcpOutcomes.WorkerThere(View(), events);
      }
      AcpOutcomes.SettleAnswers(View(), events);
      OnAnswer();
      CommitOutcome();
      var replayed;
      outcome, replayed := FinishPrompt();
      AcpOutcomes.CompletedAnswers(View(), events);
    }
  }
}
