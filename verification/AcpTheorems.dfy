/**
 * What durable dispatch promises over whole runs, crashes anywhere: a request is told to the harness at
 * most once, an outcome is final, and a completed turn has its progress on disk.
 */
module AcpTheorems {
  import opened Common
  import opened AcpDispatch

  lemma {:induction false} RunsAreSound(recovery: bool, m: Machine, es: seq<Event>)
    requires Sound(recovery, m)
    ensures Sound(recovery, Steps(recovery, m, es))
    decreases es
  {
    if es != [] {
      StepIsSound(recovery, m, es[0]);
      RunsAreSound(recovery, Step(recovery, m, es[0]), es[1..]);
    }
  }

  // ---- at most once ----

  /** No two calls of the harness were made for one request, and each said what the request said. */
  ghost predicate OncePerRequest(m: Machine) {
    && (forall i :: 0 <= i < |m.calls| ==> m.calls[i] < |m.tasks|)
    && (forall i, j :: 0 <= i < j < |m.calls| ==> m.tasks[m.calls[i]].request != m.tasks[m.calls[j]].request)
    && (forall i :: 0 <= i < |m.calls| ==>
          var t := m.tasks[m.calls[i]]; t.request in m.operations && m.operations[t.request].text == t.text)
  }

  /** With or without a way to reattach, however often the daemon dies and whatever it repeats. */
  lemma ToldAtMostOnce(recovery: bool, es: seq<Event>)
    ensures OncePerRequest(Steps(recovery, START, es))
  {
    RunsAreSound(recovery, START, es);
    var m := Steps(recovery, START, es);
    forall i, j | 0 <= i < j < |m.calls| ensures m.tasks[m.calls[i]].request != m.tasks[m.calls[j]].request {
      assert m.operations[m.tasks[m.calls[i]].request].task == m.calls[i];
      assert m.operations[m.tasks[m.calls[j]].request].task == m.calls[j];
    }
  }

  // ---- what every step leaves alone ----

  /** A task keeps its input, only ever gains progress, and once terminal keeps its outcome and its log. */
  predicate Advances(a: Task, b: Task) {
    && a.request == b.request && a.text == b.text && a.replays <= b.replays
    && a.log <= b.log && a.shown <= b.shown
    && (a.status.Terminal? ==> b == a.(replays := b.replays))
  }

  ghost predicate Grows(m: Machine, u: Machine) {
    && (forall r :: r in m.operations ==> r in u.operations && u.operations[r] == m.operations[r])
    && |m.tasks| <= |u.tasks|
    && (forall k :: 0 <= k < |m.tasks| ==> Advances(m.tasks[k], u.tasks[k]))
    && m.calls <= u.calls
  }

  lemma OneTaskGrows(m: Machine, u: Machine, k: nat)
    requires k < |m.tasks| == |u.tasks| && u.operations == m.operations && m.calls <= u.calls
    requires Advances(m.tasks[k], u.tasks[k]) && forall j :: 0 <= j < |m.tasks| && j != k ==> u.tasks[j] == m.tasks[j]
    ensures Grows(m, u)
  {
  }

  lemma WorkerIsOpen(recovery: bool, m: Machine)
    requires Sound(recovery, m) && m.worker.Some?
    ensures Open(m, m.worker.value.task)
  {
  }

  lemma EventStepsGrow(m: Machine, e: Event)
    requires m.worker.Some? && Open(m, m.worker.value.task)
    requires e in {CommitHead, Publish, Answer} || e.Emit?
    ensures Grows(m, Step(false, m, e))
  {
    hide Grows;
    match e
    case CommitHead => OneTaskGrows(m, HeadCommitted(m), m.worker.value.task);
    case Publish => OneTaskGrows(m, Published(m), m.worker.value.task);
    case Answer => OneTaskGrows(m, AnsweredTask(m), m.worker.value.task);
    case Emit(l) => OneTaskGrows(m, Emitted(m, l), m.worker.value.task);
  }

  lemma PhaseStepsGrow(m: Machine, e: Event)
    requires m.worker.Some? && Open(m, m.worker.value.task)
    requires e in {Dispatch, Call, Settle, Throw}
    ensures Grows(m, Step(false, m, e))
  {
    hide Grows;
    match e
    case Dispatch => OneTaskGrows(m, DispatchedTask(m), m.worker.value.task);
    case Call => OneTaskGrows(m, Called(m), m.worker.value.task);
    case Settle => OneTaskGrows(m, Settled(m), m.worker.value.task);
    case Throw => OneTaskGrows(m, Thrown(m), m.worker.value.task);
  }

  lemma WorkerStepsGrow(recovery: bool, m: Machine, e: Event)
    requires Sound(recovery, m) && m.worker.Some?
    requires e in {Dispatch, Call, CommitHead, Publish, Answer, Settle, Throw} || e.Emit?
    ensures Grows(m, Step(recovery, m, e))
  {
    WorkerIsOpen(recovery, m);
    hide Sound, Grows, HeadCommitted, Published, AnsweredTask, Emitted, DispatchedTask, Called, Settled, Thrown;
    if e in {Dispatch, Call, Settle, Throw} { PhaseStepsGrow(m, e); } else { EventStepsGrow(m, e); }
  }

  lemma PromptGrows(m: Machine, request: Id, text: string)
    ensures Grows(m, PromptTask(m, request, text).0)
  {
    var u := PromptTask(m, request, text).0;
    assert forall k :: 0 <= k < |m.tasks| ==> u.tasks[k] == m.tasks[k];
  }

  lemma SameGrows(m: Machine, u: Machine)
    requires u.operations == m.operations && u.tasks == m.tasks && u.calls == m.calls
    ensures Grows(m, u)
  {
  }

  lemma StepGrows(recovery: bool, m: Machine, e: Event)
    requires Sound(recovery, m)
    ensures Grows(m, Step(recovery, m, e))
  {
    hide Sound, Grows, Advances, PromptTask;
    var u := Step(recovery, m, e);
    match e
    case Prompt(request, text) => PromptGrows(m, request, text);
    case Work(k) => TaskEndsGrow(recovery, m, k);
    case GiveUp(k) => TaskEndsGrow(recovery, m, k);
    case Abort(k) => TaskEndsGrow(recovery, m, k);
    case Return => TaskEndsGrow(recovery, m, 0);
    case Assign => SameGrows(m, u);
    case CancelPrompt => SameGrows(m, u);
    case Interrupt(_) => SameGrows(m, u);
    case Crash => SameGrows(m, u);
    case _ => if m.worker.Some? { WorkerStepsGrow(recovery, m, e); } else { SameGrows(m, u); }
  }

  lemma TaskEndsGrow(recovery: bool, m: Machine, k: nat)
    ensures Grows(m, Worked(recovery, m, k)) && Grows(m, GivenUp(m, k)) && Grows(m, AbortedTask(m, k)) && Grows(m, Returned(m))
  {
    hide Grows;
    assert Grows(m, m) by { SameGrows(m, m); }
    if k < |m.tasks| && m.worker.None? && Open(m, k) {
      if m.tasks[k].status.Queued? { SameGrows(m, Worked(recovery, m, k)); } else { OneTaskGrows(m, Worked(recovery, m, k), k); }
      OneTaskGrows(m, GivenUp(m, k), k);
    }
    if Open(m, k) { OneTaskGrows(m, AbortedTask(m, k), k); }
    ReturnGrows(m);
  }

  lemma ReturnGrows(m: Machine)
    ensures Grows(m, Returned(m))
  {
    hide Grows;
    if m.pending.Some? && m.pending.value.task < |m.tasks| {
      OneTaskGrows(m, Returned(m), m.pending.value.task);
    } else {
      SameGrows(m, m);
    }
  }

  /** Acceptance is durable: over any run a request keeps its task and text, a task its progress, and a
      terminal task everything. */
  lemma {:induction false} RunsGrow(recovery: bool, m: Machine, es: seq<Event>)
    requires Sound(recovery, m)
    ensures Grows(m, Steps(recovery, m, es))
    decreases es
  {
    if es != [] {
      hide Sound, Step, Grows;
      StepIsSound(recovery, m, es[0]);
      StepGrows(recovery, m, es[0]);
      RunsGrow(recovery, Step(recovery, m, es[0]), es[1..]);
      GrowsTwice(m, Step(recovery, m, es[0]), Steps(recovery, m, es));
    } else {
      assert Grows(m, m);
    }
  }

  lemma GrowsTwice(a: Machine, b: Machine, c: Machine)
    requires Grows(a, b) && Grows(b, c)
    ensures Grows(a, c)
  {
    forall k | 0 <= k < |a.tasks| ensures Advances(a.tasks[k], c.tasks[k]) {
      assert Advances(a.tasks[k], b.tasks[k]) && Advances(b.tasks[k], c.tasks[k]);
    }
  }

  /** A turn that ever completes has on disk, in order, everything the harness said before it answered; no
      crash or repeat afterwards changes that. */
  lemma {:induction false} CompletedIsDurable(recovery: bool, m: Machine, es: seq<Event>, k: nat)
    requires Sound(recovery, m) && k < |m.tasks| && m.tasks[k].status == Terminal(Completed)
    ensures var t := Steps(recovery, m, es).tasks;
      && k < |t| && t[k] == m.tasks[k].(replays := t[k].replays)
      && t[k].due <= |t[k].log| && t[k].log[..t[k].due] == t[k].emitted[..t[k].due]
  {
    RunsGrow(recovery, m, es);
    var u := Steps(recovery, m, es);
    assert Advances(m.tasks[k], u.tasks[k]);
  }

  // ---- reuse conflicts ----

  /** Every prompt of the run is one of these, and these give a request one text. */
  ghost predicate Drawn(es: seq<Event>, texts: map<Id, string>) {
    forall i :: 0 <= i < |es| && es[i].Prompt? ==> es[i].request in texts && texts[es[i].request] == es[i].text
  }

  ghost predicate Agrees(m: Machine, texts: map<Id, string>) {
    forall r :: r in m.operations ==> r in texts && texts[r] == m.operations[r].text
  }

  lemma StepAgrees(recovery: bool, m: Machine, e: Event, texts: map<Id, string>)
    requires Agrees(m, texts) && (e.Prompt? ==> e.request in texts && texts[e.request] == e.text)
    ensures Agrees(Step(recovery, m, e), texts)
  {
  }

  /** If a request always comes with the same text, no prompt of any run is refused as a reused ID. */
  lemma {:induction false} NeverConflicts(recovery: bool, m: Machine, es: seq<Event>, texts: map<Id, string>, k: nat)
    requires Agrees(m, texts) && Drawn(es, texts) && k < |es| && es[k].Prompt?
    ensures PromptTask(Steps(recovery, m, es[..k]), es[k].request, es[k].text).1 != Conflict
    decreases es
  {
    if k == 0 {
      assert es[..0] == [];
    } else {
      StepAgrees(recovery, m, es[0], texts);
      assert es[..k][1..] == es[1..][..k - 1];
      NeverConflicts(recovery, Step(recovery, m, es[0]), es[1..], texts, k - 1);
    }
  }

  /** And a request that once came with one text conflicts for ever with any other. */
  lemma OtherTextConflicts(recovery: bool, m: Machine, es: seq<Event>, request: Id, text: string)
    requires Sound(recovery, m) && request in m.operations && m.operations[request].text != text
    requires Steps(recovery, m, es).pending.None?
    ensures PromptTask(Steps(recovery, m, es), request, text) == (Steps(recovery, m, es), Conflict)
  {
    RunsGrow(recovery, m, es);
  }

  // ---- cancelling ----

  /** The caller has cancelled the prompt whose task has not been told to the harness yet. */
  ghost predicate CancelStands(m: Machine, k: nat) {
    && k < |m.tasks| && k !in m.calls
    && (m.tasks[k].status.Terminal?
        || (m.pending.Some? && m.pending.value.task == k && m.pending.value.known && m.pending.value.cancelled))
  }

  lemma OnlyCallTells(recovery: bool, m: Machine, e: Event)
    ensures e != Call ==> Step(recovery, m, e).calls == m.calls
  {
  }

  /** The cancelled prompt stays the one in flight until it returns, which it does only when it is over. */
  lemma PendingStands(recovery: bool, m: Machine, e: Event, k: nat)
    requires m.pending.Some? && m.pending.value.task == k && m.pending.value.known && m.pending.value.cancelled
    requires e != Crash && k < |m.tasks|
    ensures Step(recovery, m, e).pending == m.pending || m.tasks[k].status.Terminal?
  {
  }

  lemma CancelStepStands(recovery: bool, m: Machine, e: Event, k: nat)
    requires Sound(recovery, m) && CancelStands(m, k) && e != Crash
    ensures CancelStands(Step(recovery, m, e), k)
  {
    StepGrows(recovery, m, e);
    var u := Step(recovery, m, e);
    assert Advances(m.tasks[k], u.tasks[k]);
    OnlyCallTells(recovery, m, e);
    if !m.tasks[k].status.Terminal? { PendingStands(recovery, m, e, k); }
    if m.worker.Some? { WorkerIsOpen(recovery, m); }
    hide Sound, Grows, Advances;
    if e == Call {
      assert u == Called(m);
    } else {
      hide Step;
    }
  }

  /** As long as the daemon lives, a cancelled prompt that has not reached the harness never does. */
  lemma {:induction false} CancelledIsNeverTold(recovery: bool, m: Machine, es: seq<Event>, k: nat)
    requires Sound(recovery, m) && CancelStands(m, k) && Crash !in es
    ensures k !in Steps(recovery, m, es).calls
    decreases es
  {
    if es != [] {
      hide Sound, Step, CancelStands;
      StepIsSound(recovery, m, es[0]);
      CancelStepStands(recovery, m, es[0], k);
      CancelledIsNeverTold(recovery, Step(recovery, m, es[0]), es[1..], k);
    } else {
      assert CancelStands(m, k);
    }
  }
}
